/** The audit actor (it/unitn/ds1/actors/Checker.java): asks every
    coordinator and server for a report, adds up the servers' sums and
    compares the total with what the store held at the start. */
module Checkers {
  import opened Common
  import opened CrashPhases
  import opened Messages
  import opened Servers

  /** `servers.size() * (DB_SIZE * DEFAULT_VALUE)`: the total the store
      started with, which transfers never change. */
  function CorrectSum(numServers: int): int
  {
    numServers * (DB_SIZE * DEFAULT_VALUE)
  }

  function SumOf(s: seq<int>): int
  {
    if s == [] then 0 else SumOf(s[..|s| - 1]) + s[|s| - 1]
  }

  /** Reports from servers that each still hold their initial total add up
      to the expected sum. */
  lemma {:induction false} UntouchedShardsPass(reports: seq<int>)
    requires forall i :: 0 <= i < |reports| ==> reports[i] == DB_SIZE * DEFAULT_VALUE
    ensures SumOf(reports) == CorrectSum(|reports|)
  {
    if reports != [] {
      UntouchedShardsPass(reports[..|reports| - 1]);
    }
  }

  /** The reports of freshly built servers pass the check. */
  lemma FreshServersPass(ids: seq<int>, reports: seq<int>)
    requires |reports| == |ids|
    requires forall i :: 0 <= i < |ids| ==> reports[i] == ShardTotal(InitialDatabase(ids[i]), ids[i])
    ensures SumOf(reports) == CorrectSum(|ids|)
  {
    forall i | 0 <= i < |ids|
      ensures reports[i] == DB_SIZE * DEFAULT_VALUE
    {
      InitialShardTotal(ids[i]);
    }
    UntouchedShardsPass(reports);
  }

  /** `assert (partialSum == correctSum)` as written: both are `Integer`
      objects, so `==` compares references and holds only for equal numbers
      inside the `Integer` cache. */
  predicate SumCheckAsWritten(partialSum: int, correctSum: int)
  {
    BoxedIdentical(partialSum, correctSum)
  }

  /** With at least one server the correct total is at least 1000, outside the
      cache, so the check as written rejects even a store that is exactly
      right. */
  lemma SumCheckAsWrittenRejectsCorrectStore(numServers: int)
    requires numServers >= 1
    ensures !SumCheckAsWritten(CorrectSum(numServers), CorrectSum(numServers))
  {
  }

  class Checker {
    var counterCoordinators: int
    var counterServers: int
    /** `null` until the welcome message arrives. */
    var coordinators: Option<set<ActorRef>>
    var servers: Option<set<ActorRef>>
    var partialSum: int
    var numServerCrashes: map<ActorRef, CrashPhaseMap>
    var numCoordinatorCrashes: map<ActorRef, CrashPhaseMap>
    /** Messages sent so far, oldest first. */
    var outbox: seq<Envelope>
    /** The server sums received so far, oldest first. */
    ghost var serverReports: seq<int>

    /** `partialSum` is the sum of the server reports and `counterServers`
        their number. */
    ghost predicate Valid()
      reads this
    {
      partialSum == SumOf(serverReports) && counterServers == |serverReports| && counterCoordinators >= 0
    }

    constructor ()
      ensures Valid()
      ensures counterCoordinators == 0 && counterServers == 0 && partialSum == 0
      ensures coordinators == None && servers == None
      ensures numServerCrashes == map[] && numCoordinatorCrashes == map[] && outbox == []
    {
      counterCoordinators := 0;
      counterServers := 0;
      partialSum := 0;
      coordinators := None;
      servers := None;
      numServerCrashes := map[];
      numCoordinatorCrashes := map[];
      outbox := [];
      serverReports := [];
    }

    /** `onCheckerWelcomeMsg`: learn the two groups, as sets. */
    method OnCheckerWelcomeMsg(serverList: seq<ActorRef>, coordinatorList: seq<ActorRef>)
      modifies this`servers, this`coordinators
      ensures servers == Some(set s | s in serverList)
      ensures coordinators == Some(set c | c in coordinatorList)
    {
      servers := Some(set s | s in serverList);
      coordinators := Some(set c | c in coordinatorList);
    }

    /** `onCheckCorrectness`: ask every coordinator, then every server. */
    method OnCheckCorrectness() returns (o: Outcome)
      modifies this`outbox
      ensures coordinators.None? ==> o == Threw(NullPointer) && outbox == old(outbox)
      ensures coordinators.Some? && servers.None? ==>
        o == Threw(NullPointer) && outbox == old(outbox) + [Multicast(coordinators.value, CheckCorrectness)]
      ensures coordinators.Some? && servers.Some? ==>
        o == Done && outbox == old(outbox) + [Multicast(coordinators.value, CheckCorrectness),
                                              Multicast(servers.value, CheckCorrectness)]
    {
      if coordinators.None? {
        return Threw(NullPointer);
      }
      outbox := outbox + [Multicast(coordinators.value, CheckCorrectness)];
      if servers.None? {
        return Threw(NullPointer);
      }
      outbox := outbox + [Multicast(servers.value, CheckCorrectness)];
      o := Done;
    }

    /** `onCheckCorrectnessResponse`. A coordinator's report is counted and
        its crash map stored (replacing an earlier one); a server's report
        also adds its sum. Once as many servers as the group holds have
        answered, `verdict` is the outcome of comparing the total with
        `CorrectSum`, by value. A sender in neither group changes nothing. */
    method OnCheckCorrectnessResponse(sender: ActorRef, sumOfKeys: int, crashes: CrashPhaseMap)
      returns (o: Outcome, verdict: Option<bool>)
      requires Valid()
      modifies this`counterCoordinators, this`counterServers, this`partialSum,
               this`numServerCrashes, this`numCoordinatorCrashes, this`serverReports
      ensures Valid()
      ensures coordinators.None? ==>
        && o == Threw(NullPointer) && verdict == None
        && counterCoordinators == old(counterCoordinators) && counterServers == old(counterServers)
        && partialSum == old(partialSum)
        && numCoordinatorCrashes == old(numCoordinatorCrashes) && numServerCrashes == old(numServerCrashes)
      ensures coordinators.Some? && sender in coordinators.value ==>
        && o == Done && verdict == None
        && counterCoordinators == old(counterCoordinators) + 1
        && numCoordinatorCrashes == old(numCoordinatorCrashes)[sender := crashes]
        && counterServers == old(counterServers) && partialSum == old(partialSum)
        && numServerCrashes == old(numServerCrashes) && serverReports == old(serverReports)
      ensures coordinators.Some? && sender !in coordinators.value && servers.None? ==>
        && o == Threw(NullPointer) && verdict == None
        && counterCoordinators == old(counterCoordinators) && counterServers == old(counterServers)
        && partialSum == old(partialSum)
        && numCoordinatorCrashes == old(numCoordinatorCrashes) && numServerCrashes == old(numServerCrashes)
      ensures coordinators.Some? && sender !in coordinators.value && servers.Some? && sender !in servers.value ==>
        && o == Done && verdict == None
        && counterCoordinators == old(counterCoordinators) && counterServers == old(counterServers)
        && partialSum == old(partialSum)
        && numCoordinatorCrashes == old(numCoordinatorCrashes) && numServerCrashes == old(numServerCrashes)
      ensures coordinators.Some? && sender !in coordinators.value && servers.Some? && sender in servers.value ==>
        && o == Done
        && serverReports == old(serverReports) + [sumOfKeys]
        && partialSum == old(partialSum) + sumOfKeys
        && counterServers == old(counterServers) + 1
        && numServerCrashes == old(numServerCrashes)[sender := crashes]
        && counterCoordinators == old(counterCoordinators) && numCoordinatorCrashes == old(numCoordinatorCrashes)
        && (counterServers == |servers.value| ==> verdict == Some(SumOf(serverReports) == CorrectSum(|servers.value|)))
        && (counterServers != |servers.value| ==> verdict == None)
    {
      verdict := None;
      if coordinators.None? {
        return Threw(NullPointer), None;
      }
      if sender in coordinators.value {
        counterCoordinators := counterCoordinators + 1;
        numCoordinatorCrashes := numCoordinatorCrashes[sender := crashes];
        return Done, None;
      }
      if servers.None? {
        return Threw(NullPointer), None;
      }
      o := Done;
      if sender in servers.value {
        partialSum := partialSum + sumOfKeys;
        counterServers := counterServers + 1;
        serverReports := serverReports + [sumOfKeys];
        assert serverReports[..|serverReports| - 1] == old(serverReports);
        numServerCrashes := numServerCrashes[sender := crashes];
        if counterServers == |servers.value| {
          verdict := Some(partialSum == CorrectSum(|servers.value|));
        }
      }
    }
  }
}
