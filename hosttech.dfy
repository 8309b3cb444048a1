/**
 * The Hosttech DNS provider: the adapter that creates and removes the TXT
 * records of an ACME DNS-01 challenge (section 8.4 of RFC 8555), and the small
 * REST client it drives.
 *
 * The vendor's side of the HTTP exchange is `HosttechApi`: the zones and records
 * held by api.ns1.hosttech.eu, the requests received so far and the positions of
 * the requests it answers with a non-success status. `HosttechDnsClient`
 * performs one request per operation on it, and `HosttechProvider` adapts the
 * challenge vocabulary (zone, relative name, values) to those operations.
 */
module Hosttech {
  import opened Wrappers
  import opened Seqs

  /** A zone as the vendor lists it (`ZoneResult`). */
  datatype ZoneResult = ZoneResult(id: string, name: string, email: string, nameServer: string)

  /** A zone as the provider contract hands it to the orchestrator. */
  datatype DnsZone = DnsZone(id: string, name: string)

  /** A vendor-assigned record identifier; only compared and sent back, never interpreted. */
  type RecordId = nat

  /** A record held by the vendor (`DnsRecordResult`). */
  datatype Record = Record(id: RecordId, recordType: string, name: string, text: string, ttl: int)

  /** The body of a record-creation request. */
  datatype RecordBody = RecordBody(recordType: string, name: string, text: string, ttl: int)

  /** One HTTP request as the vendor receives it. */
  datatype Request =
    | GetZones(limit: nat)                          // GET zones?limit=...
    | GetRecords(zoneId: string, recordType: string) // GET zones/{zone}/records?type=...
    | PostRecord(zoneId: string, body: RecordBody)  // POST zones/{zone}/records
    | DeleteRecord(zoneId: string, recordId: RecordId) // DELETE zones/{zone}/records/{id}

  datatype Error =
    | ArgumentNull(paramName: string)   // ArgumentNullException from the client constructor
    | HttpRequestFailed(request: nat)   // EnsureSuccessStatusCode on the response to request number `request`

  const ZonePageSize: nat := 100
  const ChallengeTtl: int := 600

  /* ---------- specification functions over record sequences ---------- */

  predicate UniqueIds(rs: seq<Record>)
  {
    forall i, j :: 0 <= i < j < |rs| ==> rs[i].id != rs[j].id
  }

  predicate IdsBelow(rs: seq<Record>, bound: nat)
  {
    forall r :: r in rs ==> r.id < bound
  }

  function IdsOf(rs: seq<Record>): set<RecordId>
  {
    set r | r in rs :: r.id
  }

  predicate IsTxt(r: Record)
  {
    r.recordType == "TXT"
  }

  /** What the vendor answers to `records?type=TXT`. */
  function TxtRecords(rs: seq<Record>): seq<Record>
  {
    Filter(rs, IsTxt)
  }

  /** The adapter's selection `records.Where(r => r.Name == relativeRecordName)`. */
  function Named(rs: seq<Record>, name: string): seq<Record>
  {
    Filter(rs, (r: Record) => r.name == name)
  }

  /** The records a deletion for `name` targets: TXT records whose name is exactly `name`. */
  predicate IsChallenge(r: Record, name: string)
  {
    r.recordType == "TXT" && r.name == name
  }

  /** The records deletion removes, as the adapter finds them. */
  function Matching(rs: seq<Record>, name: string): seq<Record>
  {
    Named(TxtRecords(rs), name)
  }

  /** The zone with every challenge record for `name` gone and everything else in place. */
  function WithoutChallenge(rs: seq<Record>, name: string): seq<Record>
  {
    Filter(rs, (r: Record) => !IsChallenge(r, name))
  }

  function RemoveIds(rs: seq<Record>, ids: set<RecordId>): seq<Record>
  {
    Filter(rs, (r: Record) => r.id !in ids)
  }

  /** The records the vendor creates for `values`, numbered from `firstId`. */
  function NewTxtRecords(name: string, values: seq<string>, firstId: nat): seq<Record>
  {
    seq(|values|, i requires 0 <= i < |values| => Record(firstId + i, "TXT", name, values[i], ChallengeTtl))
  }

  /** The creation requests for `values`, one per value, in order. */
  function CreateRequests(zoneId: string, name: string, values: seq<string>): seq<Request>
  {
    seq(|values|, i requires 0 <= i < |values| => PostRecord(zoneId, RecordBody("TXT", name, values[i], ChallengeTtl)))
  }

  /** The deletion requests for `rs`, one per record, in order. */
  function DeleteRequests(zoneId: string, rs: seq<Record>): seq<Request>
  {
    seq(|rs|, i requires 0 <= i < |rs| => DeleteRecord(zoneId, rs[i].id))
  }

  /** What a run of deletions leaves behind: the requests sent, the zone's records, the outcome. */
  datatype DeleteRunResult = DeleteRunResult(sent: seq<Request>, records: seq<Record>, outcome: Outcome<Error>)

  /**
   * The vendor's view of deleting `ms` one by one from the records `rs` of a
   * zone, the first request being number `n`: each request is answered, and
   * the first non-success answer (a failing request or an id the zone does
   * not hold) ends the run.
   */
  function DeleteRun(failing: set<nat>, n: nat, zoneId: string, rs: seq<Record>, ms: seq<Record>): DeleteRunResult
    decreases |ms|
  {
    if ms == [] then DeleteRunResult([], rs, Pass)
    else
      var request := DeleteRecord(zoneId, ms[0].id);
      if n in failing || ms[0].id !in IdsOf(rs) then DeleteRunResult([request], rs, Fail(HttpRequestFailed(n)))
      else
        var rest := DeleteRun(failing, n + 1, zoneId, RemoveIds(rs, {ms[0].id}), ms[1..]);
        DeleteRunResult([request] + rest.sent, rest.records, rest.outcome)
  }

  /** Each record of `ms` is still held when its turn to be deleted comes. */
  predicate HeldInTurn(rs: seq<Record>, ms: seq<Record>)
    decreases |ms|
  {
    ms == [] || (ms[0].id in IdsOf(rs) && HeldInTurn(RemoveIds(rs, {ms[0].id}), ms[1..]))
  }

  /** What a run of creations leaves behind: the requests sent, the zone's records, the next id, the outcome. */
  datatype CreateRunResult = CreateRunResult(sent: seq<Request>, records: seq<Record>, nextId: nat, outcome: Outcome<Error>)

  /**
   * The vendor's view of creating one TXT record per value in a zone holding
   * `rs` (`known` is whether the zone exists at all), the first request being
   * number `n` and the first new record getting id `nextId`: the first
   * non-success answer ends the run.
   */
  function CreateRun(failing: set<nat>, n: nat, known: bool, zoneId: string, name: string, rs: seq<Record>, nextId: nat, values: seq<string>): CreateRunResult
    decreases |values|
  {
    if values == [] then CreateRunResult([], rs, nextId, Pass)
    else
      var request := PostRecord(zoneId, RecordBody("TXT", name, values[0], ChallengeTtl));
      if n in failing || !known then CreateRunResult([request], rs, nextId, Fail(HttpRequestFailed(n)))
      else
        var rest := CreateRun(failing, n + 1, known, zoneId, name, rs + NewTxtRecords(name, [values[0]], nextId), nextId + 1, values[1..]);
        CreateRunResult([request] + rest.sent, rest.records, rest.nextId, rest.outcome)
  }

  /** The `Select` projection of vendor zones onto the provider contract's zones. */
  function ToDnsZones(zs: seq<ZoneResult>): (r: seq<DnsZone>)
    ensures |r| == |zs|
    ensures forall i :: 0 <= i < |zs| ==> r[i].id == zs[i].id && r[i].name == zs[i].name
  {
    if zs == [] then [] else [DnsZone(zs[0].id, zs[0].name)] + ToDnsZones(zs[1..])
  }

  /**
   * Of `n` consecutive requests numbered from `start`, how many the vendor
   * answers successfully before the first one it fails (`n` if none fails).
   */
  function SucceedingPrefix(failing: set<nat>, start: nat, n: nat): (k: nat)
    ensures k <= n
    decreases n
  {
    if n == 0 || start in failing then 0 else 1 + SucceedingPrefix(failing, start + 1, n - 1)
  }

  /* ---------- lemmas about the specification functions ---------- */

  /**
   * The prefix ends at the first failing request: every request in it
   * succeeds, and the request right after it, if any, fails.
   */
  lemma {:induction false} SucceedingPrefixIsFirstFailure(failing: set<nat>, start: nat, n: nat)
    ensures var k := SucceedingPrefix(failing, start, n);
      && (forall m :: start <= m < start + k ==> m !in failing)
      && (k < n ==> start + k in failing)
    decreases n
  {
    if n > 0 && start !in failing {
      SucceedingPrefixIsFirstFailure(failing, start + 1, n - 1);
    }
  }

  lemma {:induction false} FilterKeepsUniqueIds(rs: seq<Record>, p: Record -> bool)
    requires UniqueIds(rs)
    ensures UniqueIds(Filter(rs, p))
  {
    if rs != [] {
      FilterKeepsUniqueIds(rs[1..], p);
      var head := if p(rs[0]) then [rs[0]] else [];
      var tail := Filter(rs[1..], p);
      assert Filter(rs, p) == head + tail;
      FilterMembers(rs[1..], p);
      forall x | x in tail ensures x.id != rs[0].id {
        var j :| 0 <= j < |rs[1..]| && rs[1..][j] == x;
        assert rs[j + 1] == x;
      }
      forall i, j | 0 <= i < j < |head + tail| ensures (head + tail)[i].id != (head + tail)[j].id {
        if i < |head| {
          assert (head + tail)[j] in tail;
        } else {
          assert (head + tail)[i] == tail[i - |head|] && (head + tail)[j] == tail[j - |head|];
        }
      }
    }
  }

  /** Appending records with fresh, increasing ids keeps ids unique. */
  lemma AppendKeepsUniqueIds(rs: seq<Record>, name: string, values: seq<string>, firstId: nat)
    requires UniqueIds(rs) && IdsBelow(rs, firstId)
    ensures UniqueIds(rs + NewTxtRecords(name, values, firstId))
    ensures IdsBelow(rs + NewTxtRecords(name, values, firstId), firstId + |values|)
  {
    var all := rs + NewTxtRecords(name, values, firstId);
    forall i, j | 0 <= i < j < |all| ensures all[i].id != all[j].id {
      if i < |rs| {
        assert all[i] in rs;
      }
    }
  }

  lemma DistinctRecordsHaveDistinctIds(rs: seq<Record>, x: Record, y: Record)
    requires UniqueIds(rs) && x in rs && y in rs && x != y
    ensures x.id != y.id
  {
    var i :| 0 <= i < |rs| && rs[i] == x;
    var j :| 0 <= j < |rs| && rs[j] == y;
    assert i != j;
    if i < j {
      assert rs[i].id != rs[j].id;
    } else {
      assert rs[j].id != rs[i].id;
    }
  }

  /** Exact matching: a record is matched for deletion iff it is a TXT record named exactly `name`. */
  lemma MatchingIsExact(rs: seq<Record>, name: string, r: Record)
    ensures r in Matching(rs, name) <==> r in rs && IsChallenge(r, name)
  {
    FilterMembers(rs, IsTxt);
    FilterMembers(TxtRecords(rs), (r: Record) => r.name == name);
  }

  /**
   * Deleting, by id, every record the adapter matched removes exactly the
   * challenge records for `name`, provided the vendor's ids are unique.
   */
  lemma RemovingMatchedIdsRemovesChallenges(rs: seq<Record>, name: string)
    requires UniqueIds(rs)
    ensures RemoveIds(rs, IdsOf(Matching(rs, name))) == WithoutChallenge(rs, name)
  {
    var m := Matching(rs, name);
    forall x | x in rs ensures (x.id !in IdsOf(m)) == !IsChallenge(x, name) {
      MatchingIsExact(rs, name, x);
      if !IsChallenge(x, name) {
        forall y | y in m ensures y.id != x.id {
          MatchingIsExact(rs, name, y);
          DistinctRecordsHaveDistinctIds(rs, x, y);
        }
      }
    }
    FilterCongruent(rs, (r: Record) => r.id !in IdsOf(m), (r: Record) => !IsChallenge(r, name));
  }

  lemma RemoveKeepsValidZone(rs: seq<Record>, ids: set<RecordId>, bound: nat)
    requires UniqueIds(rs) && IdsBelow(rs, bound)
    ensures UniqueIds(RemoveIds(rs, ids)) && IdsBelow(RemoveIds(rs, ids), bound)
  {
    FilterKeepsUniqueIds(rs, (r: Record) => r.id !in ids);
    RemoveIdsMembers(rs, ids);
  }

  /** A record survives the removal exactly when it was present and its id is not removed. */
  lemma RemoveIdsMembers(rs: seq<Record>, ids: set<RecordId>)
    ensures forall x :: x in RemoveIds(rs, ids) <==> x in rs && x.id !in ids
  {
    FilterMembers(rs, (r: Record) => r.id !in ids);
  }

  /** Removing no id changes nothing. */
  lemma RemoveNoIds(rs: seq<Record>)
    ensures RemoveIds(rs, IdsOf([])) == rs
  {
    assert IdsOf([]) == {};
    FilterKeepsAll(rs, (r: Record) => r.id !in IdsOf([]));
  }

  /** Removing ids in two steps is removing their union. */
  lemma {:induction false} RemoveIdsTwice(rs: seq<Record>, a: set<RecordId>, b: set<RecordId>)
    ensures RemoveIds(RemoveIds(rs, a), b) == RemoveIds(rs, a + b)
  {
    if rs != [] {
      RemoveIdsTwice(rs[1..], a, b);
      var head := if rs[0].id !in a then [rs[0]] else [];
      assert RemoveIds(rs, a) == head + RemoveIds(rs[1..], a);
      FilterAppend(head, RemoveIds(rs[1..], a), (r: Record) => r.id !in b);
    }
  }

  /** One step of a creation run: the request for the next value, then the rest of the run if it succeeded. */
  lemma CreateRunStep(failing: set<nat>, n: nat, known: bool, zoneId: string, name: string, rs: seq<Record>, nextId: nat, values: seq<string>, i: nat)
    requires i < |values|
    ensures var request := PostRecord(zoneId, RecordBody("TXT", name, values[i], ChallengeTtl));
      var rest := CreateRun(failing, n + 1, known, zoneId, name, rs + NewTxtRecords(name, [values[i]], nextId), nextId + 1, values[i + 1..]);
      CreateRun(failing, n, known, zoneId, name, rs, nextId, values[i..])
        == if n !in failing && known then CreateRunResult([request] + rest.sent, rest.records, rest.nextId, rest.outcome)
           else CreateRunResult([request], rs, nextId, Fail(HttpRequestFailed(n)))
  {
    assert values[i..][0] == values[i] && values[i..][1..] == values[i + 1..];
  }

  /** The creation requests for a value followed by others. */
  lemma CreateRequestsCons(zoneId: string, name: string, v: string, values: seq<string>)
    ensures CreateRequests(zoneId, name, [v] + values)
      == [PostRecord(zoneId, RecordBody("TXT", name, v, ChallengeTtl))] + CreateRequests(zoneId, name, values)
  {
  }

  /**
   * Creation stops exactly at the first failing request (at once in an unknown
   * zone), having sent one request per value up to and including it.
   */
  lemma {:induction false} CreateRunStopsAtFailure(failing: set<nat>, n: nat, known: bool, zoneId: string, name: string, rs: seq<Record>, nextId: nat, values: seq<string>)
    ensures var k := if known then SucceedingPrefix(failing, n, |values|) else 0;
      var run := CreateRun(failing, n, known, zoneId, name, rs, nextId, values);
      && run.sent == CreateRequests(zoneId, name, values[..if k < |values| then k + 1 else k])
      && run.outcome == if k < |values| then Fail(HttpRequestFailed(n + k)) else Pass
    decreases |values|
  {
    if values != [] && n !in failing && known {
      var request := PostRecord(zoneId, RecordBody("TXT", name, values[0], ChallengeTtl));
      var rs' := rs + NewTxtRecords(name, [values[0]], nextId);
      CreateRunStopsAtFailure(failing, n + 1, known, zoneId, name, rs', nextId + 1, values[1..]);
      var tail := CreateRun(failing, n + 1, known, zoneId, name, rs', nextId + 1, values[1..]);
      assert CreateRun(failing, n, known, zoneId, name, rs, nextId, values).sent == [request] + tail.sent;
      var k := SucceedingPrefix(failing, n, |values|);
      assert k == 1 + SucceedingPrefix(failing, n + 1, |values| - 1);
      var sent := if k < |values| then k + 1 else k;
      assert values[..sent] == [values[0]] + values[1..][..sent - 1];
      CreateRequestsCons(zoneId, name, values[0], values[1..][..sent - 1]);
    }
  }

  /**
   * Creation appends, in order and with consecutive fresh ids, one record per
   * value before the first failing request, and nothing else.
   */
  lemma {:induction false} CreateRunAppendsPrefix(failing: set<nat>, n: nat, known: bool, zoneId: string, name: string, rs: seq<Record>, nextId: nat, values: seq<string>)
    ensures var k := if known then SucceedingPrefix(failing, n, |values|) else 0;
      var run := CreateRun(failing, n, known, zoneId, name, rs, nextId, values);
      && run.records == rs + NewTxtRecords(name, values[..k], nextId)
      && run.nextId == nextId + k
    decreases |values|
  {
    if values == [] || n in failing || !known {
      assert values[..0] == [];
      assert NewTxtRecords(name, [], nextId) == [];
      assert rs + [] == rs;
    } else {
      var first := NewTxtRecords(name, [values[0]], nextId);
      CreateRunAppendsPrefix(failing, n + 1, known, zoneId, name, rs + first, nextId + 1, values[1..]);
      var k := SucceedingPrefix(failing, n, |values|);
      assert k == 1 + SucceedingPrefix(failing, n + 1, |values| - 1);
      assert values[..k] == [values[0]] + values[1..][..k - 1];
      assert NewTxtRecords(name, values[..k], nextId) == first + NewTxtRecords(name, values[1..][..k - 1], nextId + 1);
      AppendRegroup(rs, first, NewTxtRecords(name, values[1..][..k - 1], nextId + 1));
    }
  }

  /** One step of a deletion run: the request for the next record, then the rest of the run if it succeeded. */
  lemma DeleteRunStep(failing: set<nat>, n: nat, zoneId: string, rs: seq<Record>, ms: seq<Record>, i: nat)
    requires i < |ms|
    ensures var request := DeleteRecord(zoneId, ms[i].id);
      var ok := n !in failing && ms[i].id in IdsOf(rs);
      var rest := DeleteRun(failing, n + 1, zoneId, RemoveIds(rs, {ms[i].id}), ms[i + 1..]);
      DeleteRun(failing, n, zoneId, rs, ms[i..])
        == if ok then DeleteRunResult([request] + rest.sent, rest.records, rest.outcome)
           else DeleteRunResult([request], rs, Fail(HttpRequestFailed(n)))
  {
    assert ms[i..][0] == ms[i] && ms[i..][1..] == ms[i + 1..];
  }

  /** After the first of the records is deleted, the rest are still held and still have distinct ids. */
  lemma DeleteRunTail(rs: seq<Record>, ms: seq<Record>)
    requires ms != [] && UniqueIds(ms) && forall x :: x in ms ==> x in rs
    ensures ms[0].id in IdsOf(rs)
    ensures UniqueIds(ms[1..]) && forall x :: x in ms[1..] ==> x in RemoveIds(rs, {ms[0].id})
  {
    assert ms[0] in rs;
    RemoveIdsMembers(rs, {ms[0].id});
    forall x | x in ms[1..] ensures x in RemoveIds(rs, {ms[0].id}) {
      var j :| 1 <= j < |ms| && ms[j] == x;
      assert x.id != ms[0].id;
    }
    assert UniqueIds(ms[1..]) by {
      forall a, b | 0 <= a < b < |ms| - 1 ensures ms[1..][a].id != ms[1..][b].id {
        assert ms[a + 1].id != ms[b + 1].id;
      }
    }
  }

  /**
   * Records the zone holds, with distinct ids, can be deleted one after the
   * other without any of them having gone missing in between.
   */
  lemma {:induction false} DistinctHeldRecordsAreHeldInTurn(rs: seq<Record>, ms: seq<Record>)
    requires UniqueIds(ms) && forall x :: x in ms ==> x in rs
    ensures HeldInTurn(rs, ms)
    decreases |ms|
  {
    if ms != [] {
      DeleteRunTail(rs, ms);
      DistinctHeldRecordsAreHeldInTurn(RemoveIds(rs, {ms[0].id}), ms[1..]);
    }
  }

  /** The deletion requests for a record followed by others. */
  lemma DeleteRequestsCons(zoneId: string, m: Record, ms: seq<Record>)
    ensures DeleteRequests(zoneId, [m] + ms) == [DeleteRecord(zoneId, m.id)] + DeleteRequests(zoneId, ms)
  {
  }

  /**
   * Deleting records each still held when its turn comes stops exactly at the
   * first failing request, having sent the requests up to and including it.
   */
  lemma {:induction false} DeleteRunStopsAtFailure(failing: set<nat>, n: nat, zoneId: string, rs: seq<Record>, ms: seq<Record>)
    requires HeldInTurn(rs, ms)
    ensures var k := SucceedingPrefix(failing, n, |ms|);
      var run := DeleteRun(failing, n, zoneId, rs, ms);
      && run.sent == DeleteRequests(zoneId, ms[..if k < |ms| then k + 1 else k])
      && run.outcome == if k < |ms| then Fail(HttpRequestFailed(n + k)) else Pass
    decreases |ms|
  {
    if ms != [] && n !in failing {
      var rest := RemoveIds(rs, {ms[0].id});
      var tail := DeleteRun(failing, n + 1, zoneId, rest, ms[1..]);
      assert DeleteRun(failing, n, zoneId, rs, ms) == DeleteRunResult([DeleteRecord(zoneId, ms[0].id)] + tail.sent, tail.records, tail.outcome);
      DeleteRunStopsAtFailure(failing, n + 1, zoneId, rest, ms[1..]);
      var k := SucceedingPrefix(failing, n, |ms|);
      assert k == 1 + SucceedingPrefix(failing, n + 1, |ms| - 1);
      var sent := if k < |ms| then k + 1 else k;
      assert ms[..sent] == [ms[0]] + ms[1..][..sent - 1];
      DeleteRequestsCons(zoneId, ms[0], ms[1..][..sent - 1]);
    }
  }

  /**
   * Deleting records each still held when its turn comes removes exactly the
   * records before the first failing request.
   */
  lemma {:induction false} DeleteRunRemovesPrefix(failing: set<nat>, n: nat, zoneId: string, rs: seq<Record>, ms: seq<Record>)
    requires HeldInTurn(rs, ms)
    ensures DeleteRun(failing, n, zoneId, rs, ms).records == RemoveIds(rs, IdsOf(ms[..SucceedingPrefix(failing, n, |ms|)]))
    decreases |ms|
  {
    if ms == [] || n in failing {
      RemoveNoIds(rs);
    } else {
      var id := ms[0].id;
      DeleteRunRemovesPrefix(failing, n + 1, zoneId, RemoveIds(rs, {id}), ms[1..]);
      assert DeleteRun(failing, n, zoneId, rs, ms).records == DeleteRun(failing, n + 1, zoneId, RemoveIds(rs, {id}), ms[1..]).records;
      var k := SucceedingPrefix(failing, n, |ms|);
      assert k == 1 + SucceedingPrefix(failing, n + 1, |ms| - 1);
      assert ms[..k] == [ms[0]] + ms[1..][..k - 1];
      assert IdsOf(ms[..k]) == {id} + IdsOf(ms[1..][..k - 1]);
      RemoveIdsTwice(rs, {id}, IdsOf(ms[1..][..k - 1]));
    }
  }

  /**
   * The adapter's deletion in full: in a zone whose ids are unique, deleting
   * the matched records stops at the first failing request; when none fails,
   * exactly the challenge records for `name` are gone.
   */
  lemma DeleteMatchedRemovesChallenges(failing: set<nat>, n: nat, zoneId: string, rs: seq<Record>, name: string)
    requires UniqueIds(rs)
    ensures var matched := Matching(rs, name);
      var run := DeleteRun(failing, n, zoneId, rs, matched);
      run.outcome.Pass? ==> run.records == WithoutChallenge(rs, name)
  {
    var matched := Matching(rs, name);
    FilterKeepsUniqueIds(rs, IsTxt);
    FilterKeepsUniqueIds(TxtRecords(rs), (r: Record) => r.name == name);
    forall x | x in matched ensures x in rs {
      MatchingIsExact(rs, name, x);
    }
    DistinctHeldRecordsAreHeldInTurn(rs, matched);
    DeleteRunStopsAtFailure(failing, n, zoneId, rs, matched);
    DeleteRunRemovesPrefix(failing, n, zoneId, rs, matched);
    if DeleteRun(failing, n, zoneId, rs, matched).outcome.Pass? {
      assert matched[..SucceedingPrefix(failing, n, |matched|)] == matched;
      RemovingMatchedIdsRemovesChallenges(rs, name);
    }
  }

  /**
   * Cleanup after a creation that stopped anywhere: deleting `name` from a zone
   * to which some challenge records for `name` were appended yields what
   * deleting it from the zone before the creation would.
   */
  lemma CleanupAfterPartialCreate(rs: seq<Record>, name: string, values: seq<string>, firstId: nat)
    ensures WithoutChallenge(rs + NewTxtRecords(name, values, firstId), name) == WithoutChallenge(rs, name)
  {
    var created := NewTxtRecords(name, values, firstId);
    FilterAppend(rs, created, (r: Record) => !IsChallenge(r, name));
    FilterDropsAll(created, (r: Record) => !IsChallenge(r, name));
    assert rs + [] == rs;
  }

  /**
   * Round trip: on a zone with no challenge records for `name`, deleting `name`
   * after creating records for it restores the zone exactly.
   */
  lemma DeleteUndoesCreate(rs: seq<Record>, name: string, values: seq<string>, firstId: nat)
    requires forall r :: r in rs ==> !IsChallenge(r, name)
    ensures WithoutChallenge(rs + NewTxtRecords(name, values, firstId), name) == rs
  {
    CleanupAfterPartialCreate(rs, name, values, firstId);
    FilterKeepsAll(rs, (r: Record) => !IsChallenge(r, name));
  }

  /** Deleting twice leaves the zone as deleting once does. */
  lemma DeleteIsIdempotent(rs: seq<Record>, name: string)
    ensures WithoutChallenge(WithoutChallenge(rs, name), name) == WithoutChallenge(rs, name)
  {
    FilterMembers(rs, (r: Record) => !IsChallenge(r, name));
    FilterKeepsAll(WithoutChallenge(rs, name), (r: Record) => !IsChallenge(r, name));
  }

  /** After a deletion the adapter finds nothing more to delete, so a second deletion issues no DELETE. */
  lemma NothingMatchesAfterDelete(rs: seq<Record>, name: string)
    ensures Matching(WithoutChallenge(rs, name), name) == []
  {
    FilterMembers(rs, (r: Record) => !IsChallenge(r, name));
    FilterMembers(WithoutChallenge(rs, name), IsTxt);
    FilterDropsAll(TxtRecords(WithoutChallenge(rs, name)), (r: Record) => r.name == name);
  }

  /**
   * With no challenge record for `name` in the zone, deletion finds nothing,
   * issues no DELETE, succeeds and leaves the zone as it was.
   */
  lemma DeleteWithoutMatchesIsNoOp(failing: set<nat>, n: nat, zoneId: string, rs: seq<Record>, name: string)
    requires forall r :: r in rs ==> !IsChallenge(r, name)
    ensures Matching(rs, name) == []
    ensures DeleteRun(failing, n, zoneId, rs, Matching(rs, name)) == DeleteRunResult([], rs, Pass)
    ensures WithoutChallenge(rs, name) == rs
  {
    FilterMembers(rs, IsTxt);
    FilterDropsAll(TxtRecords(rs), (r: Record) => r.name == name);
    FilterKeepsAll(rs, (r: Record) => !IsChallenge(r, name));
  }

  /* ---------- the vendor ---------- */

  /**
   * The Hosttech DNS API as seen through HTTP: its zones, the records of each
   * zone, the next id it will assign, every request received so far, and the
   * positions (in `log`) of the requests it answers with a non-success status.
   */
  class HosttechApi {
    var zones: seq<ZoneResult>
    var records: map<string, seq<Record>>
    var nextId: nat
    var log: seq<Request>
    const failing: set<nat>

    /** Record ids are unique within a zone and all below the next id to assign. */
    ghost predicate Valid()
      reads this
    {
      forall z :: z in records ==> UniqueIds(records[z]) && IdsBelow(records[z], nextId)
    }

    constructor (zones: seq<ZoneResult>, records: map<string, seq<Record>>, nextId: nat, failing: set<nat>)
      requires forall z :: z in records ==> UniqueIds(records[z]) && IdsBelow(records[z], nextId)
      ensures Valid()
      ensures this.zones == zones && this.records == records && this.nextId == nextId
      ensures this.log == [] && this.failing == failing
    {
      this.zones := zones;
      this.records := records;
      this.nextId := nextId;
      this.log := [];
      this.failing := failing;
    }
  }

  /* ---------- the REST client ---------- */

  class HosttechDnsClient {
    const api: HosttechApi
    const apiToken: string

    constructor (apiToken: string, api: HosttechApi)
      ensures this.apiToken == apiToken && this.api == api
    {
      this.apiToken := apiToken;
      this.api := api;
    }

    /** The constructor's argument check: a null token is rejected before any request. */
    static method New(apiToken: Option<string>, api: HosttechApi) returns (r: Result<HosttechDnsClient, Error>)
      ensures r.Failure? <==> apiToken.None?
      ensures r.Failure? ==> r.error == ArgumentNull("apiToken")
      ensures r.Success? ==> fresh(r.value) && r.value.api == api && r.value.apiToken == apiToken.value
    {
      if apiToken.None? {
        return Failure(ArgumentNull("apiToken"));
      }
      var client := new HosttechDnsClient(apiToken.value, api);
      return Success(client);
    }

    /** One page of at most 100 zones. */
    method ListZones() returns (r: Result<seq<ZoneResult>, Error>)
      modifies api`log
      ensures api.log == old(api.log) + [GetZones(ZonePageSize)]
      ensures var n := |old(api.log)|;
        r == if n in api.failing then Failure(HttpRequestFailed(n))
             else Success(api.zones[..if |api.zones| < ZonePageSize then |api.zones| else ZonePageSize])
    {
      var n := |api.log|;
      api.log := api.log + [GetZones(ZonePageSize)];
      if n in api.failing {
        return Failure(HttpRequestFailed(n));
      }
      var count := if |api.zones| < ZonePageSize then |api.zones| else ZonePageSize;
      return Success(api.zones[..count]);
    }

    /** The TXT records of a zone, in the vendor's order; an unknown zone is answered with an error status. */
    method ListTxtRecords(zoneId: string) returns (r: Result<seq<Record>, Error>)
      modifies api`log
      ensures api.log == old(api.log) + [GetRecords(zoneId, "TXT")]
      ensures var n := |old(api.log)|;
        r == if n in api.failing || zoneId !in api.records then Failure(HttpRequestFailed(n))
             else Success(TxtRecords(api.records[zoneId]))
    {
      var n := |api.log|;
      api.log := api.log + [GetRecords(zoneId, "TXT")];
      if n in api.failing || zoneId !in api.records {
        return Failure(HttpRequestFailed(n));
      }
      return Success(TxtRecords(api.records[zoneId]));
    }

    /** Creates one TXT record with ttl 600; nothing existing is replaced. */
    method CreateDnsRecord(zoneId: string, name: string, content: string) returns (r: Outcome<Error>)
      requires api.Valid()
      modifies api`log, api`records, api`nextId
      ensures api.Valid()
      ensures api.log == old(api.log) + [PostRecord(zoneId, RecordBody("TXT", name, content, ChallengeTtl))]
      ensures var n := |old(api.log)|;
        var ok := n !in api.failing && zoneId in old(api.records);
        && r == (if ok then Pass else Fail(HttpRequestFailed(n)))
        && api.records == (if ok then old(api.records)[zoneId := old(api.records)[zoneId] + NewTxtRecords(name, [content], old(api.nextId))]
                           else old(api.records))
        && api.nextId == if ok then old(api.nextId) + 1 else old(api.nextId)
    {
      var n := |api.log|;
      api.log := api.log + [PostRecord(zoneId, RecordBody("TXT", name, content, ChallengeTtl))];
      if n in api.failing || zoneId !in api.records {
        return Fail(HttpRequestFailed(n));
      }
      AppendKeepsUniqueIds(api.records[zoneId], name, [content], api.nextId);
      assert forall z :: z in api.records ==> IdsBelow(api.records[z], api.nextId + 1);
      api.records := api.records[zoneId := api.records[zoneId] + NewTxtRecords(name, [content], api.nextId)];
      api.nextId := api.nextId + 1;
      return Pass;
    }

    /** Deletes the record with the given id; an unknown zone or id is answered with an error status. */
    method DeleteDnsRecord(zoneId: string, id: RecordId) returns (r: Outcome<Error>)
      requires api.Valid()
      modifies api`log, api`records
      ensures api.Valid()
      ensures api.log == old(api.log) + [DeleteRecord(zoneId, id)]
      ensures var n := |old(api.log)|;
        var ok := n !in api.failing && zoneId in old(api.records) && id in IdsOf(old(api.records)[zoneId]);
        && r == (if ok then Pass else Fail(HttpRequestFailed(n)))
        && api.records == if ok then old(api.records)[zoneId := RemoveIds(old(api.records)[zoneId], {id})]
                          else old(api.records)
    {
      var n := |api.log|;
      api.log := api.log + [DeleteRecord(zoneId, id)];
      if n in api.failing || zoneId !in api.records || id !in IdsOf(api.records[zoneId]) {
        return Fail(HttpRequestFailed(n));
      }
      RemoveKeepsValidZone(api.records[zoneId], {id}, api.nextId);
      api.records := api.records[zoneId := RemoveIds(api.records[zoneId], {id})];
      return Pass;
    }
  }

  /* ---------- the provider ---------- */

  class HosttechProvider {
    const client: HosttechDnsClient

    /** Seconds the orchestrator waits for the vendor's name servers to serve new records. */
    const PropagationSeconds: int := 60

    constructor (client: HosttechDnsClient)
      ensures this.client == client
    {
      this.client := client;
    }

    /** Builds the provider and its client; a null token fails before any request is made. */
    static method New(apiToken: Option<string>, api: HosttechApi) returns (r: Result<HosttechProvider, Error>)
      ensures r.Failure? <==> apiToken.None?
      ensures r.Failure? ==> r.error == ArgumentNull("apiToken")
      ensures r.Success? ==> fresh(r.value) && r.value.client.api == api && r.value.PropagationSeconds == 60
      ensures api.log == old(api.log)
    {
      var client := HosttechDnsClient.New(apiToken, api);
      if client.Failure? {
        return Failure(client.error);
      }
      var provider := new HosttechProvider(client.value);
      return Success(provider);
    }

    /** The vendor's zones as `DnsZone`s, same ids and names, same order. */
    method ListZones() returns (r: Result<seq<DnsZone>, Error>)
      modifies client.api`log
      ensures client.api.log == old(client.api.log) + [GetZones(ZonePageSize)]
      ensures var n := |old(client.api.log)|;
        var zs := client.api.zones;
        r == if n in client.api.failing then Failure(HttpRequestFailed(n))
             else Success(ToDnsZones(zs[..if |zs| < ZonePageSize then |zs| else ZonePageSize]))
    {
      var zones := client.ListZones();
      if zones.Failure? {
        return Failure(zones.error);
      }
      return Success(ToDnsZones(zones.value));
    }

    /**
     * One creation request per value, in order. The first request the vendor
     * refuses stops the loop and the error propagates; `CreateRun` says what
     * that leaves behind.
     */
    method CreateTxtRecord(zone: DnsZone, relativeRecordName: string, values: seq<string>) returns (r: Outcome<Error>)
      requires client.api.Valid()
      modifies client.api`log, client.api`records, client.api`nextId
      ensures client.api.Valid()
      ensures var api := client.api;
        var known := zone.id in old(api.records);
        var run := CreateRun(api.failing, |old(api.log)|, known, zone.id, relativeRecordName,
                             if known then old(api.records)[zone.id] else [], old(api.nextId), values);
        && api.log == old(api.log) + run.sent
        && api.nextId == run.nextId
        && api.records == (if known then old(api.records)[zone.id := run.records] else old(api.records))
        && r == run.outcome
    {
      var api := client.api;
      ghost var known := zone.id in api.records;
      ghost var current := if known then api.records[zone.id] else [];
      ghost var run := CreateRun(api.failing, |api.log|, known, zone.id, relativeRecordName, current, api.nextId, values);
      ghost var sent: seq<Request> := [];
      ghost var rest := run;
      assert known ==> old(api.records)[zone.id := current] == old(api.records);
      var i := 0;
      while i < |values|
        invariant 0 <= i <= |values|
        invariant api.Valid()
        invariant api.log == old(api.log) + sent
        invariant api.records == if known then old(api.records)[zone.id := current] else old(api.records)
        invariant rest == CreateRun(api.failing, |api.log|, known, zone.id, relativeRecordName, current, api.nextId, values[i..])
        invariant run.sent == sent + rest.sent && run.records == rest.records && run.nextId == rest.nextId && run.outcome == rest.outcome
      {
        var request := PostRecord(zone.id, RecordBody("TXT", relativeRecordName, values[i], ChallengeTtl));
        ghost var n, id, records := |api.log|, api.nextId, api.records;
        ghost var ok := n !in api.failing && known;
        CreateRunStep(api.failing, n, known, zone.id, relativeRecordName, current, id, values, i);
        var created := client.CreateDnsRecord(zone.id, relativeRecordName, values[i]);
        AppendRegroup(old(api.log), sent, [request]);
        AppendRegroup(sent, [request], []);
        if created.Fail? {
          assert !ok && api.records == records && api.nextId == id;
          sent := sent + [request];
          return created;
        }
        assert ok && api.records == records[zone.id := current + NewTxtRecords(relativeRecordName, [values[i]], id)];
        current := current + NewTxtRecords(relativeRecordName, [values[i]], id);
        assert |api.log| == n + 1 && api.nextId == id + 1;
        var next := CreateRun(api.failing, n + 1, known, zone.id, relativeRecordName, current, id + 1, values[i + 1..]);
        assert rest == CreateRunResult([request] + next.sent, next.records, next.nextId, next.outcome);
        AppendRegroup(sent, [request], next.sent);
        sent, rest := sent + [request], next;
        i := i + 1;
      }
      assert run.sent == sent + [];
      return Pass;
    }

    /**
     * Lists the zone's TXT records, keeps those whose name equals
     * `relativeRecordName` exactly, and deletes them one by one, stopping at
     * the first request the vendor refuses; `DeleteRun` says what that leaves
     * behind. When every request succeeds, exactly the challenge records for
     * that name are gone and every other record of every zone is untouched.
     */
    method DeleteTxtRecord(zone: DnsZone, relativeRecordName: string) returns (r: Outcome<Error>)
      requires client.api.Valid()
      modifies client.api`log, client.api`records
      ensures client.api.Valid()
      ensures var api := client.api;
        var start := |old(api.log)|;
        if start in api.failing || zone.id !in old(api.records) then
          && r == Fail(HttpRequestFailed(start))
          && api.log == old(api.log) + [GetRecords(zone.id, "TXT")]
          && api.records == old(api.records)
        else
          var before := old(api.records)[zone.id];
          var run := DeleteRun(api.failing, start + 1, zone.id, before, Matching(before, relativeRecordName));
          && api.log == old(api.log) + [GetRecords(zone.id, "TXT")] + run.sent
          && api.records == old(api.records)[zone.id := run.records]
          && r == run.outcome
      ensures r.Pass? ==> (zone.id in old(client.api.records) &&
        client.api.records == old(client.api.records)[zone.id := WithoutChallenge(old(client.api.records)[zone.id], relativeRecordName)])
    {
      var api := client.api;
      ghost var start := |api.log|;
      ghost var listable := start !in api.failing && zone.id in api.records;
      var listed := client.ListTxtRecords(zone.id);
      if listed.Failure? {
        assert !listable && listed.error == HttpRequestFailed(start);
        return Fail(listed.error);
      }
      assert listable;
      ghost var before := api.records[zone.id];
      var recordsToDelete := Named(listed.value, relativeRecordName);
      assert recordsToDelete == Matching(before, relativeRecordName);
      ghost var run := DeleteRun(api.failing, start + 1, zone.id, before, recordsToDelete);
      ghost var listedLog := api.log;
      assert listedLog == old(api.log) + [GetRecords(zone.id, "TXT")];
      assert |api.log| == start + 1 && api.records == old(api.records) && before == old(api.records)[zone.id];
      r := DeleteEach(zone.id, recordsToDelete);
      assert api.log == listedLog + run.sent;
      assert api.records == old(api.records)[zone.id := run.records];
      if r.Pass? {
        DeleteMatchedRemovesChallenges(api.failing, start + 1, zone.id, before, relativeRecordName);
      }
    }

    /**
     * The `foreach` of the deletion: one deletion request per record, in
     * order, stopping at the first one the vendor refuses.
     */
    method DeleteEach(zoneId: string, recordsToDelete: seq<Record>) returns (r: Outcome<Error>)
      requires client.api.Valid() && zoneId in client.api.records
      modifies client.api`log, client.api`records
      ensures client.api.Valid()
      ensures var api := client.api;
        var run := DeleteRun(api.failing, |old(api.log)|, zoneId, old(api.records)[zoneId], recordsToDelete);
        && api.log == old(api.log) + run.sent
        && api.records == old(api.records)[zoneId := run.records]
        && r == run.outcome
    {
      var api := client.api;
      ghost var current := api.records[zoneId];
      ghost var run := DeleteRun(api.failing, |api.log|, zoneId, current, recordsToDelete);
      ghost var sent: seq<Request> := [];
      ghost var rest := run;
      assert old(api.records)[zoneId := current] == old(api.records);
      var i := 0;
      while i < |recordsToDelete|
        invariant 0 <= i <= |recordsToDelete|
        invariant api.Valid()
        invariant api.log == old(api.log) + sent
        invariant api.records == old(api.records)[zoneId := current]
        invariant rest == DeleteRun(api.failing, |api.log|, zoneId, current, recordsToDelete[i..])
        invariant run.sent == sent + rest.sent && run.records == rest.records && run.outcome == rest.outcome
      {
        var record := recordsToDelete[i];
        var request := DeleteRecord(zoneId, record.id);
        ghost var n, records := |api.log|, api.records;
        ghost var ok := n !in api.failing && record.id in IdsOf(current);
        DeleteRunStep(api.failing, n, zoneId, current, recordsToDelete, i);
        var deleted := client.DeleteDnsRecord(zoneId, record.id);
        AppendRegroup(old(api.log), sent, [request]);
        AppendRegroup(sent, [request], []);
        if deleted.Fail? {
          assert !ok && api.records == records;
          sent := sent + [request];
          return deleted;
        }
        assert ok && api.records == records[zoneId := RemoveIds(current, {record.id})];
        current := RemoveIds(current, {record.id});
        assert |api.log| == n + 1;
        var next := DeleteRun(api.failing, n + 1, zoneId, current, recordsToDelete[i + 1..]);
        assert rest == DeleteRunResult([request] + next.sent, next.records, next.outcome);
        AppendRegroup(sent, [request], next.sent);
        sent, rest := sent + [request], next;
        i := i + 1;
      }
      assert run.sent == sent + [];
      return Pass;
    }
  }

  /**
   * A challenge cycle as the orchestrator runs it: create the records, then
   * clean up whatever the creation achieved. On a zone that held no challenge
   * records for the name, a successful cleanup restores it exactly, even when
   * the creation stopped part-way.
   */
  method ChallengeCycle(provider: HosttechProvider, zone: DnsZone, relativeRecordName: string, values: seq<string>)
    returns (created: Outcome<Error>, deleted: Outcome<Error>)
    requires provider.client.api.Valid()
    requires zone.id in provider.client.api.records ==>
      forall r :: r in provider.client.api.records[zone.id] ==> !IsChallenge(r, relativeRecordName)
    modifies provider.client.api`log, provider.client.api`records, provider.client.api`nextId
    ensures deleted.Pass? ==> provider.client.api.records == old(provider.client.api.records)
  {
    var api := provider.client.api;
    ghost var before := api.records;
    ghost var start := |api.log|;
    ghost var firstId := api.nextId;
    created := provider.CreateTxtRecord(zone, relativeRecordName, values);
    deleted := provider.DeleteTxtRecord(zone, relativeRecordName);
    if deleted.Pass? {
      var k := SucceedingPrefix(api.failing, start, |values|);
      CreateRunAppendsPrefix(api.failing, start, true, zone.id, relativeRecordName, before[zone.id], firstId, values);
      DeleteUndoesCreate(before[zone.id], relativeRecordName, values[..k], firstId);
    }
  }
}
