/** One running capture per phone. */
module PcapCaptures {
  import opened Text

  /** The running captures, each with the call it was started for. */
  class PcapManager {
    var captures: map<string, Option<int>>

    constructor ()
      ensures captures == map[]
    {
      captures := map[];
    }

    predicate IsPhoneCapturing(p: string)
      reads this
    {
      p in captures
    }

    /** `start_for_phone`; `ok` is false when it raises. */
    method StartForPhone(p: string, cid: Option<int>) returns (ok: bool)
      modifies this
      ensures ok == !old(IsPhoneCapturing(p))
      ensures captures == if ok then old(captures)[p := cid] else old(captures)
    {
      if p in captures {
        return false;
      }
      captures := captures[p := cid];
      ok := true;
    }

    /** `stop_for_phone`; `stopped` is false when nothing was running. */
    method StopForPhone(p: string) returns (stopped: bool)
      modifies this
      ensures stopped == old(IsPhoneCapturing(p))
      ensures captures == old(captures) - {p}
    {
      stopped := p in captures;
      captures := captures - {p};
    }
  }
}
