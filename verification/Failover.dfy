/** Which failover the namenode's shutdown asks for. The namenodes are the words of a list, so none
    of them is the empty string. */
module Failover {
  import opened Kube

  /** The last of the namenodes at the host's address, or "". */
  method MyService(namenodes: seq<string>, local: set<string>) returns (mine: string)
    requires "" !in namenodes
    ensures mine == "" <==> forall i :: 0 <= i < |namenodes| ==> namenodes[i] !in local
    ensures mine != "" ==>
      exists i :: 0 <= i < |namenodes| && namenodes[i] == mine && mine in local
        && forall j :: i < j < |namenodes| ==> namenodes[j] !in local
  {
    mine := "";
    for n := 0 to |namenodes|
      invariant mine == "" <==> forall i :: 0 <= i < n ==> namenodes[i] !in local
      invariant mine != "" ==>
        exists i :: 0 <= i < n && namenodes[i] == mine && mine in local
          && forall j :: i < j < n ==> namenodes[j] !in local
    {
      if namenodes[n] in local {
        mine := namenodes[n];
      }
    }
  }

  /** `i` is the first of the namenodes that reports to be on standby. */
  predicate FirstStandby(namenodes: seq<string>, standby: set<string>, i: int) {
    0 <= i < |namenodes| && namenodes[i] in standby && forall j :: 0 <= j < i ==> namenodes[j] !in standby
  }

  /** An active namenode that knows its own name asks to be replaced by the first namenode on
      standby, unless that is itself. */
  method Shutdown(active: bool, namenodes: seq<string>, mine: string, standby: set<string>)
    returns (failover: Option<(string, string)>)
    requires "" !in namenodes
    ensures failover.Some? <==>
      active && mine != "" && exists i :: FirstStandby(namenodes, standby, i) && namenodes[i] != mine
    ensures failover.Some? ==>
      && failover.value.0 == mine && failover.value.1 != mine
      && failover.value.1 in standby && failover.value.1 in namenodes
    ensures forall i :: FirstStandby(namenodes, standby, i) && failover.Some? ==> failover.value.1 == namenodes[i]
  {
    failover := None;
    if active {
      var target := "";
      for n := 0 to |namenodes|
        invariant target == "" && forall i :: 0 <= i < n ==> namenodes[i] !in standby
      {
        if namenodes[n] in standby {
          target := namenodes[n];
          assert FirstStandby(namenodes, standby, n);
          break;
        }
      }
      if mine != "" && target != "" && mine != target {
        failover := Some((mine, target));
      }
    }
  }
}
