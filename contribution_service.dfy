/** The stored contribution list of the contribution service: records are appended, the first
    record with an id is patched, every record with an id is deleted, and the list is read back
    through two order-preserving filters. Storage is the class field `contributions`; reading it
    stands for `getAllContributions`, which yields [] when the stored entry is missing or cannot be
    parsed. Ids and timestamps come in as parameters. */
module ContributionService {
  import opened Wrappers
  import opened Seqs
  import opened MessageParser

  datatype ParseStatus = Success | Failed | Pending

  /** A stored contribution. `date` (the parse time) and `timestamp` (the store time) are
      clock readings. */
  datatype Contribution = Contribution(
    id: string,
    senderName: string,
    amount: Amount,
    memberId: string,
    date: int,
    source: Source,
    parseStatus: ParseStatus,
    rawMessage: string,
    timestamp: int)

  /** What a caller hands to `addContribution`: every field except `id` and `timestamp`. */
  datatype NewContribution = NewContribution(
    senderName: string,
    amount: Amount,
    memberId: string,
    date: int,
    source: Source,
    parseStatus: ParseStatus,
    rawMessage: string)

  /** `Partial<Contribution>`: a field given as `Some(v)` replaces the stored one. */
  datatype ContributionPatch = ContributionPatch(
    id: Option<string>,
    senderName: Option<string>,
    amount: Option<Amount>,
    memberId: Option<string>,
    date: Option<int>,
    source: Option<Source>,
    parseStatus: Option<ParseStatus>,
    rawMessage: Option<string>,
    timestamp: Option<int>)

  const NoChanges: ContributionPatch :=
    ContributionPatch(None, None, None, None, None, None, None, None, None)

  /** The fields of a record that its creator supplied. */
  function Supplied(c: Contribution): NewContribution {
    NewContribution(c.senderName, c.amount, c.memberId, c.date, c.source, c.parseStatus, c.rawMessage)
  }

  /** `{ ...contribution, id, timestamp }`: the supplied fields with the generated ones. */
  function Stamped(n: NewContribution, id: string, timestamp: int): (c: Contribution)
    ensures c.id == id && c.timestamp == timestamp
    ensures Supplied(c) == n
  {
    Contribution(id, n.senderName, n.amount, n.memberId, n.date, n.source, n.parseStatus, n.rawMessage, timestamp)
  }

  /** `{ ...c, ...updates }`: an empty patch leaves the record as it was, and a patch without an
      id keeps the record's id. */
  function Overlay(c: Contribution, u: ContributionPatch): (r: Contribution)
    ensures u == NoChanges ==> r == c
    ensures u.id.None? ==> r.id == c.id
    ensures u.timestamp.None? ==> r.timestamp == c.timestamp
  {
    Contribution(
      u.id.GetOr(c.id),
      u.senderName.GetOr(c.senderName),
      u.amount.GetOr(c.amount),
      u.memberId.GetOr(c.memberId),
      u.date.GetOr(c.date),
      u.source.GetOr(c.source),
      u.parseStatus.GetOr(c.parseStatus),
      u.rawMessage.GetOr(c.rawMessage),
      u.timestamp.GetOr(c.timestamp))
  }

  /** `{ ...u, ...v }` for two patches: a field set in `v` wins over the same field in `u`. */
  function Merge(u: ContributionPatch, v: ContributionPatch): ContributionPatch {
    ContributionPatch(
      Later(u.id, v.id), Later(u.senderName, v.senderName), Later(u.amount, v.amount),
      Later(u.memberId, v.memberId), Later(u.date, v.date), Later(u.source, v.source),
      Later(u.parseStatus, v.parseStatus), Later(u.rawMessage, v.rawMessage),
      Later(u.timestamp, v.timestamp))
  }

  function Later<T>(a: Option<T>, b: Option<T>): Option<T> {
    if b.Some? then b else a
  }

  /** Two successive updates of a record are one update by the merged patch; in particular
      applying a patch twice is applying it once. */
  lemma OverlayLaws(c: Contribution, u: ContributionPatch, v: ContributionPatch)
    ensures Overlay(Overlay(c, u), v) == Overlay(c, Merge(u, v))
    ensures Overlay(Overlay(c, u), u) == Overlay(c, u)
  {
    assert Merge(u, u) == u;
  }

  /** `cs.findIndex(c => c.id === id)`: the first position holding `id`, or -1. */
  function FindIndex(cs: seq<Contribution>, id: string): (r: int)
    ensures -1 <= r < |cs|
    ensures r == -1 <==> forall j :: 0 <= j < |cs| ==> cs[j].id != id
    ensures r >= 0 ==> cs[r].id == id && forall j :: 0 <= j < r ==> cs[j].id != id
  {
    if cs == [] then -1
    else if cs[0].id == id then 0
    else
      var k := FindIndex(cs[1..], id);
      if k == -1 then -1 else k + 1
  }

  /** A record added with an id already present does not shadow the earlier one; with a new id
      it is the one an update reaches. */
  lemma FindAfterAdd(cs: seq<Contribution>, c: Contribution)
    ensures FindIndex(cs + [c], c.id) == if FindIndex(cs, c.id) == -1 then |cs| else FindIndex(cs, c.id)
  {
    var k := FindIndex(cs, c.id);
    var s := cs + [c];
    if k == -1 {
      assert forall j :: 0 <= j < |cs| ==> s[j].id != c.id;
      assert s[|cs|].id == c.id;
    } else {
      assert s[k].id == c.id;
      assert forall j :: 0 <= j < k ==> s[j].id != c.id;
    }
  }

  /** Whether clock reading `t` lies in the window, both ends included. */
  predicate InWindow(t: int, start: int, end: int) {
    start <= t <= end
  }

  /** The selection tests of the filters below. */
  function IdOtherThan(id: string): Contribution -> bool {
    (c: Contribution) => c.id != id
  }

  function HasStatus(status: ParseStatus): Contribution -> bool {
    (c: Contribution) => c.parseStatus == status
  }

  function StoredWithin(start: int, end: int): Contribution -> bool {
    (c: Contribution) => InWindow(c.timestamp, start, end)
  }

  /** `deleteContribution`'s filter: the records whose id differs. */
  function WithoutId(cs: seq<Contribution>, id: string): (r: seq<Contribution>)
    ensures forall j :: 0 <= j < |r| ==> r[j].id != id && r[j] in cs
    ensures forall j :: 0 <= j < |cs| && cs[j].id != id ==> cs[j] in r
    ensures FindIndex(cs, id) == -1 ==> r == cs
  {
    FilterTrivial(cs, IdOtherThan(id));
    Filter(cs, IdOtherThan(id))
  }

  /** Appending a record and then deleting an id keeps the appended record exactly when its id
      differs. */
  lemma WithoutIdAppend(cs: seq<Contribution>, c: Contribution, id: string)
    ensures WithoutId(cs + [c], id) == WithoutId(cs, id) + (if c.id != id then [c] else [])
  {
    FilterAppend(cs, [c], IdOtherThan(id));
    assert [c][1..] == [];
  }

  /** Deleting an id removes what adding a record with that id added, and nothing of it is left
      for an update to find. */
  lemma DeleteAfterAdd(cs: seq<Contribution>, n: NewContribution, id: string, timestamp: int)
    ensures WithoutId(cs + [Stamped(n, id, timestamp)], id) == WithoutId(cs, id)
    ensures FindIndex(WithoutId(cs, id), id) == -1
  {
    var c := Stamped(n, id, timestamp);
    FilterAppend(cs, [c], IdOtherThan(id));
    assert Filter([c], IdOtherThan(id)) == [];
  }

  /** `getContributionsByStatus`: the records with that status, in stored order. */
  function ContributionsByStatus(cs: seq<Contribution>, status: ParseStatus): (r: seq<Contribution>)
    ensures forall j :: 0 <= j < |r| ==> r[j] in cs && r[j].parseStatus == status
    ensures forall j :: 0 <= j < |cs| && cs[j].parseStatus == status ==> cs[j] in r
  {
    Filter(cs, HasStatus(status))
  }

  /** `getContributionsByDateRange`: the records stored within the window, in stored order. */
  function ContributionsByDateRange(cs: seq<Contribution>, start: int, end: int): (r: seq<Contribution>)
    ensures forall j :: 0 <= j < |r| ==> r[j] in cs && InWindow(r[j].timestamp, start, end)
    ensures forall j :: 0 <= j < |cs| && InWindow(cs[j].timestamp, start, end) ==> cs[j] in r
    ensures start > end ==> r == []
  {
    FilterTrivial(cs, StoredWithin(start, end));
    Filter(cs, StoredWithin(start, end))
  }

  /** A record just added shows up last in the filters it passes, and the earlier results
      keep their order in front of it. */
  lemma FiltersAfterAdd(cs: seq<Contribution>, c: Contribution, status: ParseStatus, start: int, end: int)
    ensures ContributionsByStatus(cs + [c], status) ==
              ContributionsByStatus(cs, status) + (if c.parseStatus == status then [c] else [])
    ensures ContributionsByDateRange(cs + [c], start, end) ==
              ContributionsByDateRange(cs, start, end) + (if InWindow(c.timestamp, start, end) then [c] else [])
  {
    FilterAppend(cs, [c], HasStatus(status));
    FilterAppend(cs, [c], StoredWithin(start, end));
  }

  /** Every record has exactly one of the three statuses. */
  lemma {:induction false} StatusPartition(cs: seq<Contribution>)
    ensures |ContributionsByStatus(cs, Success)| + |ContributionsByStatus(cs, Failed)| +
            |ContributionsByStatus(cs, Pending)| == |cs|
  {
    if cs != [] {
      StatusPartition(cs[1..]);
    }
  }

  /** The storage of the contribution service. */
  class ContributionStore {
    /** What `getAllContributions` returns. */
    var contributions: seq<Contribution>

    constructor ()
      ensures contributions == []
    {
      contributions := [];
    }

    /** `addContribution`: the record with its generated id and timestamp goes last. */
    method AddContribution(n: NewContribution, id: string, timestamp: int)
      modifies this
      ensures contributions == old(contributions) + [Stamped(n, id, timestamp)]
    {
      contributions := contributions + [Stamped(n, id, timestamp)];
    }

    /** `updateContribution`: only the first record with the id is patched; an absent id
        leaves the list as it was. */
    method UpdateContribution(id: string, updates: ContributionPatch)
      modifies this
      ensures |contributions| == |old(contributions)|
      ensures var k := FindIndex(old(contributions), id);
        forall j :: 0 <= j < |contributions| && j != k ==> contributions[j] == old(contributions)[j]
      ensures var k := FindIndex(old(contributions), id);
        k >= 0 ==> contributions[k] == Overlay(old(contributions)[k], updates)
    {
      var k := FindIndex(contributions, id);
      if k != -1 {
        contributions := contributions[k := Overlay(contributions[k], updates)];
      }
    }

    /** `deleteContribution`: every record with the id goes, the rest keep their order. */
    method DeleteContribution(id: string)
      modifies this
      ensures contributions == WithoutId(old(contributions), id)
    {
      contributions := WithoutId(contributions, id);
    }

    /** `clearAllContributions`: the stored entry is removed, so the list reads back empty. */
    method ClearAllContributions()
      modifies this
      ensures contributions == []
    {
      contributions := [];
    }
  }
}
