/** When the order in which candidates are listed decides what the selector plans. */
module CandidateOrder {
  import opened Basics
  import opened Orders
  import opened Quota
  import opened Selection
  import opened SelectionTheorems
  import Sorting

  // ---------- filtering placed candidates ----------

  /** The property says the same of a candidate at every place. */
  ghost predicate AnyPlace(p: AccountRecord -> bool) {
    forall c: AccountRecord, k: nat :: p(c.(poolPosition := k)) == p(c)
  }

  lemma {:induction false} FilterConcat<T>(p: T -> bool, s: seq<T>, t: seq<T>)
    ensures Filter(p, s + t) == Filter(p, s) + Filter(p, t)
  {
    if t == [] {
      assert s + t == s;
    } else {
      var n := |t| - 1;
      assert (s + t)[..|s + t| - 1] == s + t[..n];
      FilterConcat(p, s, t[..n]);
    }
  }

  lemma {:induction false} FilterOne<T>(p: T -> bool, x: T)
    ensures Filter(p, [x]) == if p(x) then [x] else []
  {
    assert [x][..0] == [];
  }

  /** What a property keeps of the placed candidates: what it keeps of the candidates, at their places. */
  lemma {:induction false} FilterPlaced(p: AccountRecord -> bool, request: Request, now: Instant, s: seq<AccountRecord>)
    requires AnyPlace(p)
    ensures var f, g := Filter(p, s), Filter(p, Placed(request, now, s));
            Ids(f) == Ids(g) && ((forall c :: c in f ==> c.poolPosition != 0) ==> f == g)
  {
    if s == [] {
      NothingPlaced(request, now);
    } else {
      var n := |s| - 1;
      var before, c := s[..n], s[n];
      var placed := At(c, Place(request, now, before));
      hide Placed, Place;
      FilterPlaced(p, request, now, before);
      assert s == before + [c];
      PlacedAppend(request, now, before, c);
      FilterConcat(p, before, [c]);
      FilterConcat(p, Placed(request, now, before), [placed]);
      FilterOne(p, c);
      FilterOne(p, placed);
      assert p(placed) == p(c);
      var f, g := Filter(p, before), Filter(p, Placed(request, now, before));
      assert Filter(p, s) == f + if p(c) then [c] else [];
      if p(c) {
        IdsAppend(f, c);
        IdsAppend(g, placed);
        assert forall x :: x in f ==> x in f + [c];
        assert c in f + [c];
      } else {
        assert f + [] == f && g + [] == g;
      }
    }
  }

  lemma {:induction false} PlacedMember(
    p: AccountRecord -> bool, request: Request, now: Instant, s: seq<AccountRecord>, x: AccountRecord)
    returns (i: nat)
    requires AnyPlace(p) && x in Filter(p, Placed(request, now, s))
    ensures i < |s| && x == At(s[i], Place(request, now, s[..i])) && p(s[i])
  {
    FilterMembers(p, Placed(request, now, s), x);
    i :| 0 <= i < |s| && Placed(request, now, s)[i] == x;
    assert p(x) == p(s[i]);
  }

  lemma {:induction false} MemberPlaced(
    p: AccountRecord -> bool, request: Request, now: Instant, s: seq<AccountRecord>, i: nat)
    requires AnyPlace(p) && i < |s| && p(s[i])
    ensures At(s[i], Place(request, now, s[..i])) in Filter(p, Placed(request, now, s))
  {
    var x := Placed(request, now, s)[i];
    assert p(x);
    FilterMembers(p, Placed(request, now, s), x);
  }

  // ---------- rearranged lists ----------

  lemma {:induction false} Repeated<T>(s: seq<T>, i: nat, j: nat)
    requires i < j < |s| && s[i] == s[j]
    ensures multiset(s)[s[i]] >= 2
  {
    assert s == s[..j] + [s[j]] + s[j + 1..];
    assert s[..j][i] in s[..j];
  }

  lemma {:induction false} DistinctOnce(s: seq<AccountRecord>, x: AccountRecord)
    requires DistinctIds(s)
    ensures multiset(s)[x] <= 1
  {
    if s != [] {
      DistinctOnce(s[1..], x);
      assert s == [s[0]] + s[1..];
      assert s[0] == x ==> x !in s[1..];
    }
  }

  lemma {:induction false} DistinctRearranged(a: seq<AccountRecord>, b: seq<AccountRecord>)
    requires multiset(a) == multiset(b) && DistinctIds(a)
    ensures DistinctIds(b) && IdsIdentify(a) && IdsIdentify(b) && |a| == |b|
    ensures forall x :: x in a <==> x in b
  {
    forall x ensures x in a <==> x in b { Sorting.SameMembers(a, b, x); }
    assert |a| == |multiset(a)| == |multiset(b)| == |b|;
    forall i, j | 0 <= i < j < |b| ensures b[i].accountId != b[j].accountId {
      if b[i].accountId == b[j].accountId {
        assert b[i] in a && b[j] in a;
        Repeated(b, i, j);
        DistinctOnce(a, b[i]);
      }
    }
  }

  function Without<T>(s: seq<T>, i: nat): seq<T>
    requires i < |s|
  {
    s[..i] + s[i + 1..]
  }

  lemma {:induction false} WithoutRearranges<T>(s: seq<T>, i: nat)
    requires i < |s|
    ensures multiset([s[i]] + Without(s, i)) == multiset(s)
    ensures multiset(Without(s, i) + [s[i]]) == multiset(s)
  {
    assert s == s[..i] + [s[i]] + s[i + 1..];
  }

  /** The last place that candidate `x` can take in a rearrangement of `s`. */
  function LastPlace(request: Request, now: Instant, s: seq<AccountRecord>, x: AccountRecord): int {
    |s| - 1 + |Filter(BlockedFor(request, now), s)| - if BlockedFor(request, now)(x) then 1 else 0
  }

  lemma {:induction false} PlaceAtMost(request: Request, now: Instant, s: seq<AccountRecord>, i: nat)
    requires i < |s|
    ensures i <= Place(request, now, s[..i]) <= LastPlace(request, now, s, s[i])
  {
    var p := BlockedFor(request, now);
    assert s == s[..i] + ([s[i]] + s[i + 1..]);
    FilterConcat(p, s[..i], [s[i]] + s[i + 1..]);
    FilterConcat(p, [s[i]], s[i + 1..]);
    FilterOne(p, s[i]);
  }

  lemma {:induction false} LastPlaceRearranged(
    request: Request, now: Instant, a: seq<AccountRecord>, b: seq<AccountRecord>, x: AccountRecord)
    requires multiset(a) == multiset(b)
    ensures LastPlace(request, now, a, x) == LastPlace(request, now, b, x)
  {
    var p := BlockedFor(request, now);
    FilterOfPermutation(p, a, b);
    assert |a| == |multiset(a)| == |multiset(b)| == |b|;
    assert |Filter(p, a)| == |multiset(Filter(p, a))| == |multiset(Filter(p, b))| == |Filter(p, b)|;
  }

  /** A candidate at the end of a list is at its last place. */
  lemma {:induction false} PlaceAtEnd(request: Request, now: Instant, rest: seq<AccountRecord>, x: AccountRecord)
    ensures Place(request, now, rest) == LastPlace(request, now, rest + [x], x)
  {
    FilterConcat(BlockedFor(request, now), rest, [x]);
    FilterOne(BlockedFor(request, now), x);
  }

  // ---------- quota keys, then the position, then the account id ----------

  type Keys = (QuotaView, QuotaView) -> Ordering

  function OrderBy(keys: Keys, x: AccountRecord, y: AccountRecord): Ordering {
    keys(x.quota, y.quota)
    .Then(CompareInt(x.poolPosition, y.poolPosition))
    .Then(CompareString(x.accountId, y.accountId))
  }

  /** Swapping the two sides of the comparison reverses it. */
  ghost predicate Mirrored(keys: Keys) {
    forall x, y :: keys(x, y) == keys(y, x).Reverse()
  }

  lemma {:induction false} Mirror(keys: Keys, x: QuotaView, y: QuotaView)
    requires Mirrored(keys)
    ensures keys(x, y) == keys(y, x).Reverse()
  {}

  /** `w` precedes the records of every other account. */
  ghost predicate Wins(keys: Keys, s: seq<AccountRecord>, w: AccountRecord) {
    w in s && forall x :: x in s && x.accountId != w.accountId ==> OrderBy(keys, w, x) == Less
  }

  /** `x` is among the records of `s` that no quota key puts behind another. */
  ghost predicate Top(keys: Keys, s: seq<AccountRecord>, x: AccountRecord) {
    x in s && forall y :: y in s ==> keys(x.quota, y.quota) != Greater
  }

  /** `x`, which takes its place from the list, precedes `y` on equal keys even at its last place. */
  predicate StaysAhead(x: AccountRecord, y: AccountRecord, last: int) {
    && y.poolPosition != 0
    && (last < y.poolPosition || (last == y.poolPosition && CompareString(x.accountId, y.accountId) == Less))
  }

  /** The candidate with `p` that wins is the same in every order. */
  ghost predicate WinnerSettled(
    keys: Keys, p: AccountRecord -> bool, request: Request, now: Instant, s: seq<AccountRecord>)
  {
    forall x, y ::
      Top(keys, Filter(p, s), x) && Top(keys, Filter(p, s), y) && x.accountId != y.accountId && x.poolPosition == 0
      ==> StaysAhead(x, y, LastPlace(request, now, s, x))
  }

  lemma {:induction false} AheadAtEveryPlace(
    keys: Keys, request: Request, now: Instant, s: seq<AccountRecord>, i: nat, y: AccountRecord)
    requires i < |s| && s[i].poolPosition == 0 && keys(s[i].quota, y.quota) == Equal
    requires StaysAhead(s[i], y, LastPlace(request, now, s, s[i]))
    ensures OrderBy(keys, At(s[i], Place(request, now, s[..i])), y) == Less
  {
    PlaceAtMost(request, now, s, i);
  }

  lemma {:induction false} WinsOver(keys: Keys, s: seq<AccountRecord>, w: AccountRecord, x: AccountRecord)
    requires Wins(keys, s, w) && x in s && x.accountId != w.accountId
    ensures keys(w.quota, x.quota) != Greater && OrderBy(keys, w, x) == Less
  {}

  lemma {:induction false} TopsAreEqual(keys: Keys, s: seq<AccountRecord>, x: AccountRecord, y: AccountRecord)
    requires Mirrored(keys) && Top(keys, s, x) && Top(keys, s, y)
    ensures keys(x.quota, y.quota) == Equal && keys(y.quota, x.quota) == Equal
  {
    Mirror(keys, x.quota, y.quota);
  }

  /** Candidate `i` loses to the winner if its account is another one. */
  lemma {:induction false} Loses(
    keys: Keys, p: AccountRecord -> bool, request: Request, now: Instant, s: seq<AccountRecord>, w: AccountRecord,
    i: nat)
    requires AnyPlace(p) && Wins(keys, Filter(p, Placed(request, now, s)), w)
    requires i < |s| && s[i] in Filter(p, s) && s[i].accountId != w.accountId
    ensures keys(w.quota, s[i].quota) != Greater
    ensures OrderBy(keys, w, At(s[i], Place(request, now, s[..i]))) == Less
  {
    hide Wins, Placed, Place, OrderBy, AnyPlace;
    FilterMembers(p, s, s[i]);
    MemberPlaced(p, request, now, s, i);
    WinsOver(keys, Filter(p, Placed(request, now, s)), w, At(s[i], Place(request, now, s[..i])));
  }

  /** The winner, as a candidate that was not placed yet, is at the top. */
  lemma {:induction false} WinnerIsTop(
    keys: Keys, p: AccountRecord -> bool, request: Request, now: Instant, s: seq<AccountRecord>, w: AccountRecord)
    returns (i: nat)
    requires AnyPlace(p) && IdsIdentify(s) && Mirrored(keys)
    requires Wins(keys, Filter(p, Placed(request, now, s)), w)
    ensures i < |s| && w == At(s[i], Place(request, now, s[..i])) && Top(keys, Filter(p, s), s[i])
  {
    hide Filter, Placed, Place, OrderBy, AnyPlace, Mirrored, IdsIdentify;
    i := PlacedMember(p, request, now, s, w);
    hide Wins;
    FilterMembers(p, s, s[i]);
    forall y | y in Filter(p, s) ensures keys(s[i].quota, y.quota) != Greater {
      NoneIsAhead(keys, p, request, now, s, w, i, y);
    }
  }

  lemma {:induction false} NoneIsAhead(
    keys: Keys, p: AccountRecord -> bool, request: Request, now: Instant, s: seq<AccountRecord>, w: AccountRecord,
    i: nat, y: AccountRecord)
    requires AnyPlace(p) && IdsIdentify(s) && Mirrored(keys) && Wins(keys, Filter(p, Placed(request, now, s)), w)
    requires i < |s| && w.accountId == s[i].accountId && w.quota == s[i].quota && y in Filter(p, s)
    ensures keys(s[i].quota, y.quota) != Greater
  {
    hide Filter, Wins, Placed, Place, OrderBy, AnyPlace, Mirrored;
    FilterMembers(p, s, y);
    if y == s[i] {
      Mirror(keys, y.quota, y.quota);
    } else {
      var j :| 0 <= j < |s| && s[j] == y;
      Loses(keys, p, request, now, s, w, j);
    }
  }

  /** Two winners of different orders, neither of which is overtaken by the other, are of one account. */
  lemma {:induction false} BothCannotWin(
    keys: Keys, request: Request, now: Instant, a: seq<AccountRecord>, b: seq<AccountRecord>,
    i: nat, j: nat, k: nat, l: nat)
    requires i < |a| && j < |b| && k < |a| && l < |b| && a[k] == b[j] && b[l] == a[i]
    requires a[i].accountId != b[j].accountId
    requires keys(a[i].quota, b[j].quota) == Equal && keys(b[j].quota, a[i].quota) == Equal
    requires a[i].poolPosition == 0 ==> StaysAhead(a[i], b[j], LastPlace(request, now, b, a[i]))
    requires b[j].poolPosition == 0 ==> StaysAhead(b[j], a[i], LastPlace(request, now, a, b[j]))
    ensures OrderBy(keys, At(a[i], Place(request, now, a[..i])), At(a[k], Place(request, now, a[..k]))) != Less
            || OrderBy(keys, At(b[j], Place(request, now, b[..j])), At(b[l], Place(request, now, b[..l]))) != Less
  {
    hide Place, LastPlace;
    CompareStringReverse(a[i].accountId, b[j].accountId);
    if a[i].poolPosition == 0 {
      AheadAtEveryPlace(keys, request, now, b, l, b[j]);
    } else if b[j].poolPosition == 0 {
      AheadAtEveryPlace(keys, request, now, a, k, a[i]);
    }
  }

  /** In a settled list the same account wins in every order. */
  lemma {:induction false} SettledWinner(
    keys: Keys, p: AccountRecord -> bool, request: Request, now: Instant, a: seq<AccountRecord>, b: seq<AccountRecord>,
    v: AccountRecord, w: AccountRecord)
    requires AnyPlace(p) && DistinctIds(a) && multiset(a) == multiset(b) && Mirrored(keys)
    requires WinnerSettled(keys, p, request, now, a)
    requires Wins(keys, Filter(p, Placed(request, now, a)), v) && Wins(keys, Filter(p, Placed(request, now, b)), w)
    ensures v.accountId == w.accountId
  {
    hide Wins, Placed, Place, OrderBy, AnyPlace, Mirrored, LastPlace, StaysAhead;
    DistinctRearranged(a, b);
    TopRearranged(keys, p, a, b);
    TopRearranged(keys, p, b, a);
    var i := WinnerIsTop(keys, p, request, now, a, v);
    var j := WinnerIsTop(keys, p, request, now, b, w);
    if a[i].accountId != b[j].accountId {
      var k :| 0 <= k < |a| && a[k] == b[j];
      var l :| 0 <= l < |b| && b[l] == a[i];
      TopsAreEqual(keys, Filter(p, a), a[i], b[j]);
      Loses(keys, p, request, now, a, v, k);
      Loses(keys, p, request, now, b, w, l);
      LastPlaceRearranged(request, now, a, b, a[i]);
      BothCannotWin(keys, request, now, a, b, i, j, k, l);
    }
  }

  /** A top candidate without a position wins at the head of the list. */
  lemma {:induction false} FrontWins(
    keys: Keys, p: AccountRecord -> bool, request: Request, now: Instant, s: seq<AccountRecord>, w: AccountRecord)
    requires AnyPlace(p) && DistinctIds(s) && s != [] && s[0].poolPosition == 0 && Mirrored(keys)
    requires Top(keys, Filter(p, s), s[0]) && Wins(keys, Filter(p, Placed(request, now, s)), w)
    ensures w.accountId == s[0].accountId
  {
    hide Wins, Placed, AnyPlace, Mirrored, LastPlace;
    var i := WinnerIsTop(keys, p, request, now, s, w);
    if i != 0 {
      Loses(keys, p, request, now, s, w, 0);
      PlaceAtMost(request, now, s, i);
      PlaceAtFront(request, now, s);
      hide Place;
      TopsAreEqual(keys, Filter(p, s), s[i], s[0]);
    }
  }

  lemma {:induction false} PlaceAtFront(request: Request, now: Instant, s: seq<AccountRecord>)
    ensures Place(request, now, s[..0]) == 0
  {
    assert s[..0] == [];
  }

  /** A top candidate without a position that does not stay ahead of another loses at the end of the list. */
  lemma {:induction false} EndLoses(
    keys: Keys, p: AccountRecord -> bool, request: Request, now: Instant, rest: seq<AccountRecord>,
    x: AccountRecord, j: nat, w: AccountRecord)
    requires AnyPlace(p) && DistinctIds(rest + [x]) && x.poolPosition == 0 && j < |rest| && rest[j].poolPosition != 0
    requires Mirrored(keys)
    requires Top(keys, Filter(p, rest + [x]), x) && Top(keys, Filter(p, rest + [x]), rest[j])
    requires !StaysAhead(x, rest[j], LastPlace(request, now, rest + [x], x))
    requires Wins(keys, Filter(p, Placed(request, now, rest + [x])), w)
    ensures w.accountId != x.accountId
  {
    hide Wins, Placed, AnyPlace, Mirrored, LastPlace, Place;
    var s := rest + [x];
    var i := WinnerIsTop(keys, p, request, now, s, w);
    assert s[j] == rest[j] && s[|rest|] == x;
    if w.accountId == x.accountId {
      assert i == |rest|;
      assert s[..i] == rest;
      PlaceAtEnd(request, now, rest, x);
      Loses(keys, p, request, now, s, w, j);
      CompareStringReverse(x.accountId, rest[j].accountId);
      TopsAreEqual(keys, Filter(p, s), x, rest[j]);
    }
  }

  /** In a list that is not settled, two orders have different winners. */
  lemma {:induction false} UnsettledWinners(
    keys: Keys, p: AccountRecord -> bool, request: Request, now: Instant, a: seq<AccountRecord>)
    returns (b: seq<AccountRecord>, c: seq<AccountRecord>)
    requires AnyPlace(p) && DistinctIds(a) && Mirrored(keys) && !WinnerSettled(keys, p, request, now, a)
    ensures multiset(b) == multiset(a) && multiset(c) == multiset(a)
    ensures forall v, w ::
      Wins(keys, Filter(p, Placed(request, now, b)), v) && Wins(keys, Filter(p, Placed(request, now, c)), w)
      ==> v.accountId != w.accountId
  {
    hide Wins, Placed, AnyPlace, Mirrored, LastPlace, StaysAhead;
    var x, y :| Top(keys, Filter(p, a), x) && Top(keys, Filter(p, a), y) && x.accountId != y.accountId
      && x.poolPosition == 0 && !StaysAhead(x, y, LastPlace(request, now, a, x));
    FilterMembers(p, a, x);
    FilterMembers(p, a, y);
    var i :| 0 <= i < |a| && a[i] == x;
    var j :| 0 <= j < |a| && a[j] == y;
    var rest := Without(a, i);
    WithoutRearranges(a, i);
    WithoutRearranges(a, j);
    b := [x] + rest;
    TopRearranged(keys, p, a, b);
    if y.poolPosition == 0 {
      c := [y] + Without(a, j);
      TopRearranged(keys, p, a, c);
    } else {
      c := rest + [x];
      TopRearranged(keys, p, a, c);
    }
    forall v, w | Wins(keys, Filter(p, Placed(request, now, b)), v) && Wins(keys, Filter(p, Placed(request, now, c)), w)
      ensures v.accountId != w.accountId
    {
      FrontWins(keys, p, request, now, b, v);
      if y.poolPosition == 0 {
        FrontWins(keys, p, request, now, c, w);
      } else {
        NotTheSame(a, i, j);
        var k :| 0 <= k < |rest| && rest[k] == y;
        LastPlaceRearranged(request, now, a, c, x);
        EndLoses(keys, p, request, now, rest, x, k, w);
      }
    }
  }

  lemma {:induction false} NotTheSame<T>(s: seq<T>, i: nat, j: nat)
    requires i < |s| && j < |s| && i != j
    ensures s[j] in Without(s, i)
  {
    assert Without(s, i)[if j < i then j else j - 1] == s[j];
  }

  lemma {:induction false} TopRearranged(
    keys: Keys, p: AccountRecord -> bool, a: seq<AccountRecord>, b: seq<AccountRecord>)
    requires multiset(a) == multiset(b) && DistinctIds(a)
    ensures DistinctIds(b) && (forall x :: x in a <==> x in b)
    ensures forall x :: Top(keys, Filter(p, a), x) ==> Top(keys, Filter(p, b), x)
  {
    DistinctRearranged(a, b);
    FilterOfPermutation(p, a, b);
    forall x ensures x in Filter(p, a) <==> x in Filter(p, b) { Sorting.SameMembers(Filter(p, a), Filter(p, b), x); }
  }

  // ---------- the action ----------

  function QuotaKeys(request: Request): Keys {
    (left, right) => CompareQuota(left, right, request.Family())
  }

  /** The more urgent probe first. */
  function UrgencyKeys(request: Request, now: Instant): Keys {
    (left: QuotaView, right: QuotaView) =>
      var l, r := left.Effective(request.Family()), right.Effective(request.Family());
      if l.None? || r.None? then Equal else CompareUrgency(r.value, l.value, now)
  }

  lemma {:induction false} KeysAreMirrored(request: Request, now: Instant)
    ensures Mirrored(QuotaKeys(request)) && Mirrored(UrgencyKeys(request, now))
  {
    forall x: QuotaView, y: QuotaView
      ensures CompareQuota(x, y, request.Family()) == CompareQuota(y, x, request.Family()).Reverse()
    {
      CompareQuotaReverses(x, y, request.Family());
    }
  }

  lemma {:induction false} PlacesDoNotMatter(request: Request, now: Instant)
    ensures AnyPlace(OpenFor(request, now)) && AnyPlace(ProbeReadyFor(request, now)) && AnyPlace(LooseFor(request, now))
  {
    forall c: AccountRecord, k: nat
      ensures HardReject(request, c.(poolPosition := k)) == HardReject(request, c)
      ensures Classify(c.(poolPosition := k), request.Family(), now) == Classify(c, request.Family(), now)
    {}
    hide HardReject, Classify;
  }

  lemma {:induction false} OrdinaryIsByKeys(request: Request, x: AccountRecord, y: AccountRecord)
    ensures CompareOrdinary(x, y, request) == OrderBy(QuotaKeys(request), x, y)
  {
    ThresholdTierIsImplied(x, y, request);
  }

  lemma {:induction false} BestWins(request: Request, s: seq<AccountRecord>, w: AccountRecord)
    requires Best(request, s, w)
    ensures Wins(QuotaKeys(request), s, w)
  {
    forall x | x in s && x.accountId != w.accountId ensures OrderBy(QuotaKeys(request), w, x) == Less {
      OrdinaryIsByKeys(request, w, x);
    }
  }

  lemma {:induction false} HighestWins(request: Request, now: Instant, s: seq<AccountRecord>, w: AccountRecord)
    requires HighestPriority(s, w, request.Family(), now) && AllQuoted(s, request.Family())
    ensures Wins(UrgencyKeys(request, now), s, w)
  {
    forall x | x in s && x.accountId != w.accountId ensures OrderBy(UrgencyKeys(request, now), w, x) == Less {
      CompareProbeReverses(x, w, request.Family(), now);
      ProbeIsByKeys(request, now, x, w);
    }
  }

  lemma {:induction false} ProbeIsByKeys(request: Request, now: Instant, x: AccountRecord, w: AccountRecord)
    requires x.quota.Effective(request.Family()).Some? && w.quota.Effective(request.Family()).Some?
    ensures CompareProbe(x, w, request.Family(), now) == OrderBy(UrgencyKeys(request, now), w, x)
  {}

  ghost predicate PreferredOpen(request: Request, now: Instant, s: seq<AccountRecord>) {
    exists c :: c in s && Open(request, now, c) && Some(c.accountId) == request.preferred
  }

  /** What the plan does for a list, in terms of who wins. */
  ghost predicate ActsFor(request: Request, now: Instant, s: seq<AccountRecord>, action: Action) {
    var open := Filter(OpenFor(request, now), Placed(request, now, s));
    var ready := Filter(ProbeReadyFor(request, now), Placed(request, now, s));
    if Filter(OpenFor(request, now), s) != [] then
      if PreferredOpen(request, now, s) then action == Select(request.preferred.value)
      else action.Select? && exists w :: Wins(QuotaKeys(request), open, w) && w.accountId == action.accountId
    else if Filter(ProbeReadyFor(request, now), s) != [] then
      action.Probe? && exists w :: Wins(UrgencyKeys(request, now), ready, w) && w.accountId == action.accountId
    else action == if request.intent.SoftRotation? then StayOnCurrent else NoCandidate
  }

  lemma {:induction false} PreferredPlaced(request: Request, now: Instant, s: seq<AccountRecord>)
    ensures PreferredOpen(request, now, s) <==>
            exists c :: c in Filter(OpenFor(request, now), Placed(request, now, s))
                        && Some(c.accountId) == request.preferred
  {
    PlacesDoNotMatter(request, now);
    var open := Filter(OpenFor(request, now), Placed(request, now, s));
    if c :| c in s && Open(request, now, c) && Some(c.accountId) == request.preferred {
      var i :| 0 <= i < |s| && s[i] == c;
      MemberPlaced(OpenFor(request, now), request, now, s, i);
    }
    if c :| c in open && Some(c.accountId) == request.preferred {
      var i := PlacedMember(OpenFor(request, now), request, now, s, c);
      assert s[i] in s;
    }
  }

  lemma {:induction false} EvaluateActs(request: Request, now: Instant, s: seq<AccountRecord>)
    requires !request.intent.ProbeRecovery?
    ensures ActsFor(request, now, s, Evaluate(request, now, s).action)
  {
    hide Evaluate, Placed, Best, HighestPriority, Wins, PreferredOpen, Filter;
    var open := Filter(OpenFor(request, now), Placed(request, now, s));
    var ready := Filter(ProbeReadyFor(request, now), Placed(request, now, s));
    PlacesDoNotMatter(request, now);
    FilterPlaced(OpenFor(request, now), request, now, s);
    FilterPlaced(ProbeReadyFor(request, now), request, now, s);
    SelectIsOptimal(request, now, s);
    ProbeIsLastResort(request, now, s);
    PreferredPlaced(request, now, s);
    ProbeReadyQuoted(request, now, Placed(request, now, s));
    forall w | Best(request, open, w) ensures Wins(QuotaKeys(request), open, w) {
      BestWins(request, open, w);
    }
    forall w | HighestPriority(ready, w, request.Family(), now) ensures Wins(UrgencyKeys(request, now), ready, w) {
      HighestWins(request, now, ready, w);
    }
  }

  /**
   The action does not depend on the order: the preferred account is open, or
   whoever wins among the open candidates, and without any among those due for
   a probe, wins at every place.
   */
  ghost predicate ActionSettled(request: Request, now: Instant, s: seq<AccountRecord>) {
    if Filter(OpenFor(request, now), s) != []
    then PreferredOpen(request, now, s) || WinnerSettled(QuotaKeys(request), OpenFor(request, now), request, now, s)
    else WinnerSettled(UrgencyKeys(request, now), ProbeReadyFor(request, now), request, now, s)
  }

  /** What exists in one order exists in every order. */
  lemma {:induction false} SameKinds(request: Request, now: Instant, a: seq<AccountRecord>, b: seq<AccountRecord>)
    requires multiset(a) == multiset(b)
    ensures Filter(OpenFor(request, now), a) == [] <==> Filter(OpenFor(request, now), b) == []
    ensures Filter(ProbeReadyFor(request, now), a) == [] <==> Filter(ProbeReadyFor(request, now), b) == []
    ensures PreferredOpen(request, now, a) <==> PreferredOpen(request, now, b)
  {
    FilterOfPermutation(OpenFor(request, now), a, b);
    FilterOfPermutation(ProbeReadyFor(request, now), a, b);
    NothingCounts(Filter(OpenFor(request, now), a), Filter(OpenFor(request, now), b));
    NothingCounts(Filter(ProbeReadyFor(request, now), a), Filter(ProbeReadyFor(request, now), b));
    forall x ensures x in a <==> x in b { Sorting.SameMembers(a, b, x); }
  }

  lemma {:induction false} NothingCounts<T>(a: seq<T>, b: seq<T>)
    requires multiset(a) == multiset(b)
    ensures |a| == |b| && (a == [] <==> b == [])
  {
    assert |a| == |multiset(a)| == |multiset(b)| == |b|;
  }

  lemma {:induction false} SettledAction(request: Request, now: Instant, a: seq<AccountRecord>, b: seq<AccountRecord>)
    requires !request.intent.ProbeRecovery? && DistinctIds(a) && multiset(a) == multiset(b)
    requires ActionSettled(request, now, a)
    ensures Evaluate(request, now, a).action == Evaluate(request, now, b).action
  {
    hide Evaluate, Placed, Wins, PreferredOpen, Filter, WinnerSettled, DistinctIds;
    EvaluateActs(request, now, a);
    EvaluateActs(request, now, b);
    SameKinds(request, now, a, b);
    KeysAreMirrored(request, now);
    PlacesDoNotMatter(request, now);
    var p, q := OpenFor(request, now), ProbeReadyFor(request, now);
    if Filter(p, a) != [] && !PreferredOpen(request, now, a) {
      var keys := QuotaKeys(request);
      var v, w :|
        && Wins(keys, Filter(p, Placed(request, now, a)), v)
        && v.accountId == Evaluate(request, now, a).action.accountId
        && Wins(keys, Filter(p, Placed(request, now, b)), w)
        && w.accountId == Evaluate(request, now, b).action.accountId;
      SettledWinner(keys, p, request, now, a, b, v, w);
    } else if Filter(p, a) == [] && Filter(q, a) != [] {
      var keys := UrgencyKeys(request, now);
      var v, w :|
        && Wins(keys, Filter(q, Placed(request, now, a)), v)
        && v.accountId == Evaluate(request, now, a).action.accountId
        && Wins(keys, Filter(q, Placed(request, now, b)), w)
        && w.accountId == Evaluate(request, now, b).action.accountId;
      SettledWinner(keys, q, request, now, a, b, v, w);
    }
  }

  lemma {:induction false} UnsettledAction(request: Request, now: Instant, a: seq<AccountRecord>)
    returns (b: seq<AccountRecord>, c: seq<AccountRecord>)
    requires !request.intent.ProbeRecovery? && DistinctIds(a) && !ActionSettled(request, now, a)
    ensures multiset(b) == multiset(a) && multiset(c) == multiset(a)
    ensures Evaluate(request, now, b).action != Evaluate(request, now, c).action
  {
    hide Evaluate, Placed, Wins, PreferredOpen, DistinctIds;
    KeysAreMirrored(request, now);
    PlacesDoNotMatter(request, now);
    var p, q := OpenFor(request, now), ProbeReadyFor(request, now);
    if Filter(p, a) != [] {
      b, c := UnsettledWinners(QuotaKeys(request), p, request, now, a);
    } else {
      b, c := UnsettledWinners(UrgencyKeys(request, now), q, request, now, a);
      assert Filter(q, a) != [];
    }
    hide Filter, WinnerSettled;
    SameKinds(request, now, a, b);
    SameKinds(request, now, a, c);
    EvaluateActs(request, now, b);
    EvaluateActs(request, now, c);
  }

  /**
   The action is the same for every order of the candidates if and only if
   nobody at the top of the ranking who takes a place from the list could be
   overtaken there by another.
   */
  lemma {:induction false} ActionOrderIff(request: Request, now: Instant, a: seq<AccountRecord>)
    requires !request.intent.ProbeRecovery? && DistinctIds(a)
    ensures ActionSettled(request, now, a) <==>
            forall b :: multiset(b) == multiset(a) ==>
              Evaluate(request, now, b).action == Evaluate(request, now, a).action
  {
    hide Evaluate, ActionSettled, DistinctIds;
    if ActionSettled(request, now, a) {
      forall b | multiset(b) == multiset(a)
        ensures Evaluate(request, now, b).action == Evaluate(request, now, a).action
      {
        SettledAction(request, now, a, b);
      }
    } else {
      var b, c := UnsettledAction(request, now, a);
    }
  }

  // ---------- the list of eligible accounts ----------

  /** Candidate `c` is ranked among the others, not moved to the front as the preferred one. */
  predicate Loose(request: Request, now: Instant, c: AccountRecord) {
    Open(request, now, c) && Some(c.accountId) != request.preferred
  }

  function LooseFor(request: Request, now: Instant): AccountRecord -> bool { c => Loose(request, now, c) }

  ghost function Front(request: Request, now: Instant, s: seq<AccountRecord>): seq<string> {
    if PreferredOpen(request, now, s) then [request.preferred.value] else []
  }

  lemma {:induction false} PlacedDistinct(request: Request, now: Instant, s: seq<AccountRecord>)
    requires DistinctIds(s)
    ensures DistinctIds(Placed(request, now, s)) && IdsIdentify(Placed(request, now, s))
  {
    var placed := Placed(request, now, s);
    forall i | 0 <= i < |s| ensures placed[i].accountId == s[i].accountId {}
  }

  /** Taking the preferred record out of the open ones leaves the loose ones. */
  lemma {:induction false} LooseAreTheRest(
    request: Request, now: Instant, placed: seq<AccountRecord>, first: AccountRecord)
    requires DistinctIds(placed) && IdsIdentify(placed) && first in Filter(OpenFor(request, now), placed)
    requires Some(first.accountId) == request.preferred
    ensures multiset(Filter(OpenFor(request, now), placed))
            == multiset(Filter(LooseFor(request, now), placed)) + multiset{first}
  {
    var p, q := OpenFor(request, now), LooseFor(request, now);
    FilterMembers(p, placed, first);
    forall x: AccountRecord
      ensures multiset(Filter(p, placed))[x] == (multiset(Filter(q, placed)) + multiset{first})[x]
    {
      FilterCounts(p, placed, x);
      FilterCounts(q, placed, x);
      DistinctOnce(placed, x);
      assert x in placed <==> multiset(placed)[x] > 0;
    }
  }

  lemma {:induction false} AllAreLoose(request: Request, now: Instant, placed: seq<AccountRecord>)
    requires forall x :: x in Filter(OpenFor(request, now), placed) ==> Some(x.accountId) != request.preferred
    ensures multiset(Filter(OpenFor(request, now), placed)) == multiset(Filter(LooseFor(request, now), placed))
  {
    var p, q := OpenFor(request, now), LooseFor(request, now);
    forall x: AccountRecord ensures multiset(Filter(p, placed))[x] == multiset(Filter(q, placed))[x] {
      FilterCounts(p, placed, x);
      FilterCounts(q, placed, x);
      assert x in Filter(p, placed) <==> multiset(Filter(p, placed))[x] > 0;
    }
  }

  lemma {:induction false} SortedWithout(le: (AccountRecord, AccountRecord) -> bool, sorted: seq<AccountRecord>, k: nat)
    requires Sorting.Sorted(le, sorted) && k < |sorted|
    ensures Sorting.Sorted(le, Without(sorted, k))
  {
    var rest := Without(sorted, k);
    forall i, j | 0 <= i < j < |rest| ensures le(rest[i], rest[j]) {
      assert rest[i] == sorted[if i < k then i else i + 1] && rest[j] == sorted[if j < k then j else j + 1];
    }
  }

  lemma {:induction false} WithoutOne<T>(s: seq<T>, k: nat)
    requires k < |s|
    ensures multiset(s) == multiset(Without(s, k)) + multiset{s[k]}
  {
    assert s == s[..k] + [s[k]] + s[k + 1..];
  }

  /** A sorted list without one of its elements is the sorted list of the others. */
  lemma {:induction false} SortWithout(
    le: (AccountRecord, AccountRecord) -> bool, s: seq<AccountRecord>, k: nat, others: seq<AccountRecord>)
    requires Sorting.TotalOrderOn(le, s) && k < |Sorting.Sort(le, s)|
    requires multiset(s) == multiset(others) + multiset{Sorting.Sort(le, s)[k]}
    ensures Sorting.Sort(le, others) == Without(Sorting.Sort(le, s), k)
  {
    hide Sorting.Sort, Sorting.Sorted;
    var sorted := Sorting.Sort(le, s);
    var rest := Without(sorted, k);
    Sorting.SortSorts(le, s);
    Sorting.SortPermutes(le, s);
    SortedWithout(le, sorted, k);
    WithoutOne(sorted, k);
    hide Without;
    assert multiset(rest) == (multiset(rest) + multiset{sorted[k]}) - multiset{sorted[k]};
    assert multiset(others) == (multiset(others) + multiset{sorted[k]}) - multiset{sorted[k]};
    MembersOfPart(s, others, sorted[k]);
    MembersOfPart(s, rest, sorted[k]);
    Sorting.SortPermutes(le, others);
    Sorting.SortSorts(le, others);
    Sorting.SortedIsUnique(le, rest, Sorting.Sort(le, others));
  }

  lemma {:induction false} MembersOfPart<T>(s: seq<T>, part: seq<T>, x: T)
    requires multiset(s) == multiset(part) + multiset{x}
    ensures forall y :: y in part ==> y in s
  {
    forall y | y in part ensures y in s {
      assert y in multiset(part) && y in multiset(s);
    }
  }

  lemma {:induction false} KeptIdsIdentify(p: AccountRecord -> bool, s: seq<AccountRecord>)
    requires IdsIdentify(s)
    ensures IdsIdentify(Filter(p, s))
  {
    forall x ensures x in Filter(p, s) ==> x in s { FilterMembers(p, s, x); }
  }

  function PreferredAt(request: Request, sorted: seq<AccountRecord>): (r: Option<nat>)
    ensures r.Some? ==> r.value < |sorted| && Some(sorted[r.value].accountId) == request.preferred
    ensures r.None? ==> forall x :: x in sorted ==> Some(x.accountId) != request.preferred
  {
    if request.preferred.Some? then IndexOf(sorted, request.preferred.value) else None
  }

  lemma {:induction false} EligibleAre(request: Request, now: Instant, s: seq<AccountRecord>)
    requires !request.intent.ProbeRecovery?
    ensures
      var sorted := Sorting.Sort(RankedBefore(request), Filter(OpenFor(request, now), Placed(request, now, s)));
      Evaluate(request, now, s).eligible ==
      match PreferredAt(request, sorted)
      case Some(k) => [sorted[k]] + Without(sorted, k)
      case None => sorted
  {
    hide Filter, Placed, Sorting.Sort, Admit, ProbeChoice;
    AdmitFilters(request, now, s);
    var sorted := Sorting.Sort(RankedBefore(request), Filter(OpenFor(request, now), Placed(request, now, s)));
    forall k | 0 <= k < |sorted|
      ensures [sorted[k]] + sorted[..k] + sorted[k + 1..] == [sorted[k]] + Without(sorted, k)
    {}
  }

  /** The eligible accounts are the preferred one, if it is open, and then the loose ones by rank. */
  lemma {:induction false} EligibleIds(request: Request, now: Instant, s: seq<AccountRecord>)
    requires !request.intent.ProbeRecovery? && DistinctIds(s)
    ensures Ids(Evaluate(request, now, s).eligible) ==
            Front(request, now, s)
            + Ids(Sorting.Sort(RankedBefore(request), Filter(LooseFor(request, now), Placed(request, now, s))))
  {
    hide Filter, Placed, Sorting.Sort, Evaluate, DistinctIds, IdsIdentify, PreferredOpen, RankedBefore, Without,
      PreferredAt;
    EligibleAre(request, now, s);
    PlacedDistinct(request, now, s);
    PreferredPlaced(request, now, s);
    var le, placed := RankedBefore(request), Placed(request, now, s);
    var open, loose := Filter(OpenFor(request, now), placed), Filter(LooseFor(request, now), placed);
    hide OpenFor, LooseFor;
    var sorted := Sorting.Sort(le, open);
    KeptIdsIdentify(OpenFor(request, now), placed);
    RankingIsTotalOrder(request, open);
    Sorting.SortPermutes(le, open);
    forall x ensures x in sorted <==> x in open { Sorting.SameMembers(sorted, open, x); }
    match PreferredAt(request, sorted) {
      case Some(k) =>
        assert sorted[k] in open;
        LooseAreTheRest(request, now, placed, sorted[k]);
        SortWithout(le, open, k, loose);
      case None =>
        AllAreLoose(request, now, placed);
        Sorting.SortOfPermutation(le, open, loose);
    }
  }

  /** Loose candidates on equal keys are listed the same way wherever they take their places. */
  ghost predicate RankSettled(request: Request, now: Instant, s: seq<AccountRecord>) {
    forall x, y ::
      x in s && y in s && Loose(request, now, x) && Loose(request, now, y) && x.accountId != y.accountId
      && QuotaKeys(request)(x.quota, y.quota) == Equal && x.poolPosition == 0
      ==> StaysAhead(x, y, LastPlace(request, now, s, x))
  }

  /** The record of candidate `c` at its place in `s`. */
  function AtHome(request: Request, now: Instant, s: seq<AccountRecord>): AccountRecord -> AccountRecord {
    (c: AccountRecord) =>
      match IndexOf(s, c.accountId)
      case Some(i) => At(c, Place(request, now, s[..i]))
      case None => c
  }

  lemma {:induction false} FilterMap<T>(p: T -> bool, f: T -> T, s: seq<T>)
    requires forall x :: p(f(x)) == p(x)
    ensures Filter(p, Sorting.Map(f, s)) == Sorting.Map(f, Filter(p, s))
  {
    if s != [] {
      var n := |s| - 1;
      FilterMap(p, f, s[..n]);
      assert Sorting.Map(f, s)[..n] == Sorting.Map(f, s[..n]);
      assert Sorting.Map(f, Filter(p, s[..n]) + [s[n]]) == Sorting.Map(f, Filter(p, s[..n])) + [f(s[n])];
    }
  }

  lemma {:induction false} AtHomeAt(request: Request, now: Instant, s: seq<AccountRecord>, i: nat)
    requires DistinctIds(s) && i < |s|
    ensures AtHome(request, now, s)(s[i]) == At(s[i], Place(request, now, s[..i]))
  {
    var k := IndexOf(s, s[i].accountId);
    assert k.Some? && k.value == i;
  }

  lemma {:induction false} LooseAtHome(request: Request, now: Instant, s: seq<AccountRecord>, x: AccountRecord)
    ensures AtHome(request, now, s)(x).accountId == x.accountId
    ensures LooseFor(request, now)(AtHome(request, now, s)(x)) == LooseFor(request, now)(x)
  {
    hide Place;
  }

  lemma {:induction false} PlacedAtHome(request: Request, now: Instant, s: seq<AccountRecord>)
    requires DistinctIds(s)
    ensures Filter(LooseFor(request, now), Placed(request, now, s))
            == Sorting.Map(AtHome(request, now, s), Filter(LooseFor(request, now), s))
  {
    hide Place, Filter, Loose, AtHome, LooseFor, At;
    var f := AtHome(request, now, s);
    forall i | 0 <= i < |s| ensures Placed(request, now, s)[i] == f(s[i]) {
      AtHomeAt(request, now, s, i);
    }
    assert Placed(request, now, s) == Sorting.Map(f, s);
    forall x ensures LooseFor(request, now)(f(x)) == LooseFor(request, now)(x) {
      LooseAtHome(request, now, s, x);
    }
    FilterMap(LooseFor(request, now), f, s);
  }

  lemma {:induction false} SameRank(request: Request, now: Instant, s: seq<AccountRecord>, i: nat, j: nat)
    requires i < |s| && j < |s| && i != j && s[i].accountId != s[j].accountId && RankSettled(request, now, s)
    requires Loose(request, now, s[i]) && Loose(request, now, s[j])
    ensures CompareOrdinary(At(s[i], Place(request, now, s[..i])), At(s[j], Place(request, now, s[..j])), request)
            == CompareOrdinary(s[i], s[j], request)
  {
    hide CompareOrdinary, Place, LastPlace, Loose;
    var keys := QuotaKeys(request);
    var x, y := At(s[i], Place(request, now, s[..i])), At(s[j], Place(request, now, s[..j]));
    OrdinaryIsByKeys(request, x, y);
    OrdinaryIsByKeys(request, s[i], s[j]);
    CompareQuotaReverses(s[i].quota, s[j].quota, request.Family());
    hide CompareQuota;
    if keys(s[i].quota, s[j].quota) == Equal {
      CompareStringReverse(s[i].accountId, s[j].accountId);
      if s[i].poolPosition == 0 {
        AheadAtEveryPlace(keys, request, now, s, i, s[j]);
      } else if s[j].poolPosition == 0 {
        AheadAtEveryPlace(keys, request, now, s, j, s[i]);
      }
    }
  }

  lemma {:induction false} SameRankAtHome(
    request: Request, now: Instant, s: seq<AccountRecord>, y: AccountRecord, z: AccountRecord)
    requires DistinctIds(s) && RankSettled(request, now, s)
    requires y in Filter(LooseFor(request, now), s) && z in Filter(LooseFor(request, now), s)
    ensures var f, le := AtHome(request, now, s), RankedBefore(request);
            le(f(y), f(z)) == le(y, z)
  {
    hide Place, Filter, RankSettled, CompareOrdinary, AtHome, Loose, At;
    FilterMembers(LooseFor(request, now), s, y);
    FilterMembers(LooseFor(request, now), s, z);
    var i :| 0 <= i < |s| && s[i] == y;
    var j :| 0 <= j < |s| && s[j] == z;
    AtHomeAt(request, now, s, i);
    AtHomeAt(request, now, s, j);
    if i == j {
      CompareOrdinaryReverses(y, y, request);
      CompareOrdinaryReverses(AtHome(request, now, s)(y), AtHome(request, now, s)(y), request);
    } else {
      SameRank(request, now, s, i, j);
    }
  }

  /** In a settled list the loose candidates may be sorted as they come. */
  lemma {:induction false} SortAsTheyCome(request: Request, now: Instant, s: seq<AccountRecord>)
    requires DistinctIds(s) && RankSettled(request, now, s)
    ensures Ids(Sorting.Sort(RankedBefore(request), Filter(LooseFor(request, now), Placed(request, now, s))))
            == Ids(Sorting.Sort(RankedBefore(request), Filter(LooseFor(request, now), s)))
  {
    hide Place, Placed, Filter, RankSettled, Sorting.Sort, Loose, CompareOrdinary, AtHome, DistinctIds, RankedBefore,
      LooseFor;
    var f, le, loose := AtHome(request, now, s), RankedBefore(request), Filter(LooseFor(request, now), s);
    PlacedAtHome(request, now, s);
    Sorting.SortMap(le, f, loose);
    forall y, z | y in loose && z in loose ensures Sorting.Via(le, f)(y, z) == le(y, z) {
      SameRankAtHome(request, now, s, y, z);
    }
    Sorting.SortAgrees(Sorting.Via(le, f), le, loose);
    var sorted := Sorting.Sort(le, loose);
    forall x ensures f(x).accountId == x.accountId {
      LooseAtHome(request, now, s, x);
    }
    assert Ids(Sorting.Map(f, sorted)) == Ids(sorted);
  }

  lemma {:induction false} FrontRearranged(request: Request, now: Instant, a: seq<AccountRecord>, b: seq<AccountRecord>)
    requires multiset(a) == multiset(b)
    ensures Front(request, now, a) == Front(request, now, b)
  {
    SameKinds(request, now, a, b);
  }

  lemma {:induction false} SettledEligible(request: Request, now: Instant, a: seq<AccountRecord>, b: seq<AccountRecord>)
    requires !request.intent.ProbeRecovery? && DistinctIds(a) && multiset(a) == multiset(b)
    requires RankSettled(request, now, a)
    ensures Ids(Evaluate(request, now, a).eligible) == Ids(Evaluate(request, now, b).eligible)
  {
    hide Evaluate, Placed, Filter, Sorting.Sort, Loose;
    DistinctRearranged(a, b);
    RankRearranged(request, now, a, b);
    FrontRearranged(request, now, a, b);
    EligibleIds(request, now, a);
    EligibleIds(request, now, b);
    SortAsTheyCome(request, now, a);
    SortAsTheyCome(request, now, b);
    var p := LooseFor(request, now);
    FilterOfPermutation(p, a, b);
    KeptIdsIdentify(p, a);
    RankingIsTotalOrder(request, Filter(p, a));
    Sorting.SortOfPermutation(RankedBefore(request), Filter(p, a), Filter(p, b));
  }

  lemma {:induction false} RankRearranged(request: Request, now: Instant, a: seq<AccountRecord>, b: seq<AccountRecord>)
    requires multiset(a) == multiset(b) && RankSettled(request, now, a)
    ensures RankSettled(request, now, b)
  {
    hide Loose, StaysAhead, LastPlace;
    forall x ensures x in a <==> x in b { Sorting.SameMembers(a, b, x); }
    forall x
      ensures LastPlace(request, now, a, x) == LastPlace(request, now, b, x)
    {
      LastPlaceRearranged(request, now, a, b, x);
    }
  }

  /** `u` stands before `v`. */
  ghost predicate Precedes(ids: seq<string>, u: string, v: string) {
    exists i, j :: 0 <= i < j < |ids| && ids[i] == u && ids[j] == v
  }

  /** Of two loose candidates, the one that is ranked first is listed first. */
  lemma {:induction false} ListedByRank(request: Request, now: Instant, s: seq<AccountRecord>, i: nat, j: nat)
    requires !request.intent.ProbeRecovery? && DistinctIds(s) && i < |s| && j < |s|
    requires Loose(request, now, s[i]) && Loose(request, now, s[j])
    requires OrderBy(QuotaKeys(request), At(s[i], Place(request, now, s[..i])), At(s[j], Place(request, now, s[..j])))
            == Less
    ensures Precedes(Ids(Evaluate(request, now, s).eligible), s[i].accountId, s[j].accountId)
  {
    hide Evaluate, Filter, Sorting.Sort, Loose, Place, Placed, OrderBy, CompareOrdinary, DistinctIds, QuotaKeys, Front;
    PlacesDoNotMatter(request, now);
    var p, le := LooseFor(request, now), RankedBefore(request);
    var loose := Filter(p, Placed(request, now, s));
    var sorted := Sorting.Sort(le, loose);
    var x, y := At(s[i], Place(request, now, s[..i])), At(s[j], Place(request, now, s[..j]));
    MemberPlaced(p, request, now, s, i);
    MemberPlaced(p, request, now, s, j);
    EligibleIds(request, now, s);
    RankingRanks(request, loose);
    Sorting.SortSorts(le, loose);
    Sorting.SortPermutes(le, loose);
    Sorting.SameMembers(sorted, loose, x);
    Sorting.SameMembers(sorted, loose, y);
    OrdinaryIsByKeys(request, x, y);
    CompareOrdinaryReverses(x, y, request);
    var k :| 0 <= k < |sorted| && sorted[k] == x;
    var l :| 0 <= l < |sorted| && sorted[l] == y;
    InRankOrder(le, sorted, k, l);
    var front, ids := Front(request, now, s), Ids(Evaluate(request, now, s).eligible);
    IdAt(front, sorted, ids, k);
    IdAt(front, sorted, ids, l);
    assert Precedes(ids, ids[|front| + k], ids[|front| + l]);
  }

  lemma {:induction false} InRankOrder(
    le: (AccountRecord, AccountRecord) -> bool, sorted: seq<AccountRecord>, k: nat, l: nat)
    requires Sorting.Sorted(le, sorted) && k < |sorted| && l < |sorted|
    requires k != l && !le(sorted[l], sorted[k])
    ensures k < l
  {}

  lemma {:induction false} IdAt(front: seq<string>, sorted: seq<AccountRecord>, ids: seq<string>, k: nat)
    requires ids == front + Ids(sorted) && k < |sorted|
    ensures |front| + k < |ids| == |front| + |sorted| && ids[|front| + k] == sorted[k].accountId
  {}

  /** Nobody is listed twice, so two accounts cannot precede each other. */
  lemma {:induction false} OneOrder(request: Request, now: Instant, s: seq<AccountRecord>, u: string, v: string)
    requires !request.intent.ProbeRecovery? && DistinctIds(s) && u != v
    requires Precedes(Ids(Evaluate(request, now, s).eligible), u, v)
    ensures !Precedes(Ids(Evaluate(request, now, s).eligible), v, u)
  {
    hide Evaluate;
    var ids := Ids(Evaluate(request, now, s).eligible);
    EveryCandidateListedOnce(request, now, s);
    DistinctCount(Ids(s), u);
    DistinctCount(Ids(s), v);
    forall i, j | 0 <= i < j < |ids| && (ids[i] == u || ids[i] == v) ensures ids[i] != ids[j] {
      if ids[i] == ids[j] {
        Repeated(ids, i, j);
      }
    }
  }

  lemma {:induction false} UnsettledPair(request: Request, now: Instant, a: seq<AccountRecord>) returns (i: nat, j: nat)
    requires !RankSettled(request, now, a)
    ensures i < |a| && j < |a| && a[i].accountId != a[j].accountId && a[i].poolPosition == 0
    ensures Loose(request, now, a[i]) && Loose(request, now, a[j])
    ensures QuotaKeys(request)(a[i].quota, a[j].quota) == Equal && QuotaKeys(request)(a[j].quota, a[i].quota) == Equal
    ensures !StaysAhead(a[i], a[j], LastPlace(request, now, a, a[i]))
  {
    hide LastPlace, StaysAhead, Loose, QuotaKeys;
    var x, y :| x in a && y in a && Loose(request, now, x) && Loose(request, now, y) && x.accountId != y.accountId
      && QuotaKeys(request)(x.quota, y.quota) == Equal && x.poolPosition == 0
      && !StaysAhead(x, y, LastPlace(request, now, a, x));
    i :| 0 <= i < |a| && a[i] == x;
    j :| 0 <= j < |a| && a[j] == y;
    KeysAreMirrored(request, now);
    Mirror(QuotaKeys(request), x.quota, y.quota);
  }

  /** A candidate without a position and one that ties with it can be listed in either order. */
  lemma {:induction false} EitherOrder(request: Request, now: Instant, a: seq<AccountRecord>, i: nat, j: nat)
    returns (b: seq<AccountRecord>)
    requires !request.intent.ProbeRecovery? && DistinctIds(a) && i < |a| && j < |a|
    requires a[i].accountId != a[j].accountId && a[i].poolPosition == 0
    requires Loose(request, now, a[i]) && Loose(request, now, a[j])
    requires QuotaKeys(request)(a[i].quota, a[j].quota) == Equal
    ensures multiset(b) == multiset(a) && DistinctIds(b)
    ensures Precedes(Ids(Evaluate(request, now, b).eligible), a[i].accountId, a[j].accountId)
  {
    hide Evaluate, Loose, QuotaKeys, Precedes;
    WithoutRearranges(a, i);
    NotTheSame(a, i, j);
    b := [a[i]] + Without(a, i);
    DistinctRearranged(a, b);
    hide DistinctIds, Without;
    assert b[1..] == Without(a, i);
    FrontPrecedes(request, now, b, a[j]);
  }

  lemma {:induction false} UnsettledEligible(request: Request, now: Instant, a: seq<AccountRecord>)
    returns (b: seq<AccountRecord>, c: seq<AccountRecord>)
    requires !request.intent.ProbeRecovery? && DistinctIds(a) && !RankSettled(request, now, a)
    ensures multiset(b) == multiset(a) && multiset(c) == multiset(a)
    ensures Ids(Evaluate(request, now, b).eligible) != Ids(Evaluate(request, now, c).eligible)
  {
    hide Evaluate, Place, LastPlace, OrderBy, StaysAhead, Loose, QuotaKeys, Precedes, RankSettled;
    var i, j := UnsettledPair(request, now, a);
    b := EitherOrder(request, now, a, i, j);
    if a[j].poolPosition == 0 {
      c := EitherOrder(request, now, a, j, i);
    } else {
      var rest := Without(a, i);
      WithoutRearranges(a, i);
      NotTheSame(a, i, j);
      c := rest + [a[i]];
      DistinctRearranged(a, c);
      LastPlaceRearranged(request, now, a, c, a[i]);
      hide DistinctIds, Without;
      EndFollows(request, now, rest, a[i], a[j]);
    }
    OneOrder(request, now, b, a[i].accountId, a[j].accountId);
  }

  lemma {:induction false} FrontPrecedes(request: Request, now: Instant, s: seq<AccountRecord>, y: AccountRecord)
    requires !request.intent.ProbeRecovery? && DistinctIds(s) && s != [] && y in s[1..]
    requires s[0].poolPosition == 0 && Loose(request, now, s[0]) && Loose(request, now, y)
    requires QuotaKeys(request)(s[0].quota, y.quota) == Equal
    ensures Precedes(Ids(Evaluate(request, now, s).eligible), s[0].accountId, y.accountId)
  {
    hide Evaluate, Place, LastPlace, Loose, QuotaKeys, Precedes;
    var j :| 1 <= j < |s| && s[j] == y;
    PlaceAtFront(request, now, s);
    PlaceAtMost(request, now, s, j);
    ListedByRank(request, now, s, 0, j);
  }

  lemma {:induction false} EndFollows(
    request: Request, now: Instant, rest: seq<AccountRecord>, x: AccountRecord, y: AccountRecord)
    requires !request.intent.ProbeRecovery? && DistinctIds(rest + [x]) && y in rest
    requires x.poolPosition == 0 && y.poolPosition != 0 && Loose(request, now, x) && Loose(request, now, y)
    requires QuotaKeys(request)(y.quota, x.quota) == Equal
    requires !StaysAhead(x, y, LastPlace(request, now, rest + [x], x))
    ensures Precedes(Ids(Evaluate(request, now, rest + [x]).eligible), y.accountId, x.accountId)
  {
    hide Evaluate, Place, LastPlace, Loose, QuotaKeys, Precedes;
    var s, n := rest + [x], |rest|;
    var j :| 0 <= j < n && rest[j] == y;
    assert s[j] == y && s[n] == x && s[..n] == rest;
    PlaceAtEnd(request, now, rest, x);
    CompareStringReverse(x.accountId, y.accountId);
    ListedByRank(request, now, s, j, n);
  }

  /**
   The eligible accounts are listed in the same order for every order of the
   candidates if and only if no loose candidate that takes a place from the
   list could be overtaken there by another on equal keys.
   */
  lemma {:induction false} EligibleOrderIff(request: Request, now: Instant, a: seq<AccountRecord>)
    requires !request.intent.ProbeRecovery? && DistinctIds(a)
    ensures RankSettled(request, now, a) <==>
            forall b :: multiset(b) == multiset(a) ==>
              Ids(Evaluate(request, now, b).eligible) == Ids(Evaluate(request, now, a).eligible)
  {
    hide Evaluate, RankSettled, DistinctIds;
    if RankSettled(request, now, a) {
      forall b | multiset(b) == multiset(a)
        ensures Ids(Evaluate(request, now, b).eligible) == Ids(Evaluate(request, now, a).eligible)
      {
        SettledEligible(request, now, a, b);
      }
    } else {
      var b, c := UnsettledEligible(request, now, a);
    }
  }

  /** Among candidates none of which brings a position, the order matters exactly when two loose ones tie. */
  lemma {:induction false} UnpositionedTies(request: Request, now: Instant, a: seq<AccountRecord>)
    requires forall c :: c in a ==> c.poolPosition == 0
    ensures RankSettled(request, now, a) <==>
            forall x, y :: x in a && y in a && Loose(request, now, x) && Loose(request, now, y)
                           && x.accountId != y.accountId
              ==> CompareQuota(x.quota, y.quota, request.Family()) != Equal
  {
    hide Loose, CompareQuota, LastPlace;
  }

  // ---------- the rejections ----------

  /** The rejection that candidate `c` gives rise to, if any. */
  function RejectionOf(request: Request, now: Instant, c: AccountRecord): Option<Rejected> {
    match HardReject(request, c)
    case Some(reason) => Some(Rejected(c.accountId, reason))
    case None =>
      if Classify(c, request.Family(), now).NotBlocked? then None else Some(Rejected(c.accountId, QuotaBlocked))
  }

  function RejectedAs(request: Request, now: Instant, r: Rejected): AccountRecord -> bool {
    c => RejectionOf(request, now, c) == Some(r)
  }

  /** Admission lists a candidate as rejected for a reason that does not depend on its place. */
  lemma {:induction false} AdmitRejects(request: Request, now: Instant, acc: Admission, c: AccountRecord)
    ensures AdmitOne(request, now, acc, c).rejected ==
            acc.rejected + (if RejectionOf(request, now, c).Some? then [RejectionOf(request, now, c).value] else [])
  {
    var placed := At(c, |acc.admitted| + |acc.rejected|);
    assert HardReject(request, placed) == HardReject(request, c);
    assert Classify(placed, request.Family(), now) == Classify(c, request.Family(), now);
    hide HardReject, Classify;
  }

  lemma {:induction false} RejectedCount(request: Request, now: Instant, s: seq<AccountRecord>, r: Rejected)
    ensures multiset(Admit(request, now, s).rejected)[r] == |Filter(RejectedAs(request, now, r), s)|
  {
    hide AdmitOne, RejectionOf;
    if s != [] {
      var n := |s| - 1;
      RejectedCount(request, now, s[..n], r);
      AdmitRejects(request, now, Admit(request, now, s[..n]), s[n]);
    }
  }

  lemma {:induction false} RejectedOfPermutation(
    request: Request, now: Instant, a: seq<AccountRecord>, b: seq<AccountRecord>)
    requires multiset(a) == multiset(b)
    ensures multiset(Admit(request, now, a).rejected) == multiset(Admit(request, now, b).rejected)
  {
    forall r: Rejected
      ensures multiset(Admit(request, now, a).rejected)[r] == multiset(Admit(request, now, b).rejected)[r]
    {
      RejectedCount(request, now, a, r);
      RejectedCount(request, now, b, r);
      FilterOfPermutation(RejectedAs(request, now, r), a, b);
      assert |Filter(RejectedAs(request, now, r), a)| == |multiset(Filter(RejectedAs(request, now, r), a))|;
      assert |Filter(RejectedAs(request, now, r), b)| == |multiset(Filter(RejectedAs(request, now, r), b))|;
    }
  }

  // ---------- the whole plan ----------

  lemma {:induction false} HighestIsUnique(
    a: seq<AccountRecord>, b: seq<AccountRecord>, x: AccountRecord, y: AccountRecord, family: string, now: Instant)
    requires multiset(a) == multiset(b) && AllQuoted(a, family)
    requires HighestPriority(a, x, family, now) && HighestPriority(b, y, family, now)
    ensures x.accountId == y.accountId
  {
    Sorting.SameMembers(a, b, x);
    Sorting.SameMembers(a, b, y);
    CompareProbeReverses(x, y, family, now);
  }

  /** The same plan, up to the order of the rejections. */
  ghost predicate SamePlan(p: Plan, q: Plan) {
    && p.action == q.action && p.eligible == q.eligible && p.reason == q.reason
    && p.probeCandidate == q.probeCandidate && multiset(p.rejected) == multiset(q.rejected)
  }

  ghost predicate Positioned(p: AccountRecord -> bool, s: seq<AccountRecord>) {
    forall c :: c in s && p(c) ==> c.poolPosition != 0
  }

  lemma {:induction false} FilterPositioned(
    p: AccountRecord -> bool, request: Request, now: Instant, s: seq<AccountRecord>)
    requires AnyPlace(p) && Positioned(p, s)
    ensures Filter(p, Placed(request, now, s)) == Filter(p, s)
  {
    FilterPlaced(p, request, now, s);
    forall c | c in Filter(p, s) ensures c.poolPosition != 0 {
      FilterMembers(p, s, c);
    }
  }

  lemma {:induction false} OpenIgnoreOrder(request: Request, now: Instant, a: seq<AccountRecord>, b: seq<AccountRecord>)
    requires multiset(a) == multiset(b) && IdsIdentify(a) && Positioned(OpenFor(request, now), a)
    ensures Sorting.Sort(RankedBefore(request), Unblocked(Admit(request, now, a).admitted))
            == Sorting.Sort(RankedBefore(request), Unblocked(Admit(request, now, b).admitted))
  {
    var p := OpenFor(request, now);
    hide Filter, Sorting.Sort, Admit, Placed, OpenFor;
    PlacesDoNotMatter(request, now);
    forall x ensures x in a <==> x in b { Sorting.SameMembers(a, b, x); }
    AdmitFilters(request, now, a);
    AdmitFilters(request, now, b);
    FilterPositioned(p, request, now, a);
    FilterPositioned(p, request, now, b);
    FilterOfPermutation(p, a, b);
    KeptIdsIdentify(p, a);
    RankingIsTotalOrder(request, Filter(p, a));
    Sorting.SortOfPermutation(RankedBefore(request), Filter(p, a), Filter(p, b));
  }

  lemma {:induction false} ProbesIgnoreOrder(
    request: Request, now: Instant, a: seq<AccountRecord>, b: seq<AccountRecord>)
    requires multiset(a) == multiset(b) && Positioned(ProbeReadyFor(request, now), a)
    ensures ProbeChoice(Admit(request, now, a).admitted, request.Family(), now)
            == ProbeChoice(Admit(request, now, b).admitted, request.Family(), now)
  {
    var p := ProbeReadyFor(request, now);
    hide Filter, Admit, Placed, ProbeReadyFor, MaxProbe;
    PlacesDoNotMatter(request, now);
    forall x ensures x in a <==> x in b { Sorting.SameMembers(a, b, x); }
    AdmitFilters(request, now, a);
    AdmitFilters(request, now, b);
    FilterPositioned(p, request, now, a);
    FilterPositioned(p, request, now, b);
    var readyA, readyB := Filter(p, a), Filter(p, b);
    FilterOfPermutation(p, a, b);
    NothingCounts(readyA, readyB);
    if readyA != [] {
      ProbeReadyQuoted(request, now, a);
      ProbeReadyQuoted(request, now, b);
      MaxProbeIsHighest(readyA, request.Family(), now);
      MaxProbeIsHighest(readyB, request.Family(), now);
      HighestIsUnique(readyA, readyB, MaxProbe(readyA, request.Family(), now), MaxProbe(readyB, request.Family(), now),
                      request.Family(), now);
    }
  }

  /**
   When the open and the probe-ready candidates bring positions along, the order changes
   nothing but the rejections' order.
   */
  lemma {:induction false} PlanIgnoresCandidateOrder(
    request: Request, now: Instant, a: seq<AccountRecord>, b: seq<AccountRecord>)
    requires multiset(a) == multiset(b) && IdsIdentify(a) && !request.intent.ProbeRecovery?
    requires Positioned(OpenFor(request, now), a) && Positioned(ProbeReadyFor(request, now), a)
    ensures SamePlan(Evaluate(request, now, a), Evaluate(request, now, b))
  {
    RejectedOfPermutation(request, now, a, b);
    OpenIgnoreOrder(request, now, a, b);
    ProbesIgnoreOrder(request, now, a, b);
  }

  lemma {:induction false} EligibleMembers(request: Request, now: Instant, s: seq<AccountRecord>, x: AccountRecord)
    requires !request.intent.ProbeRecovery?
    ensures x in Evaluate(request, now, s).eligible <==> x in Filter(OpenFor(request, now), Placed(request, now, s))
  {
    hide Filter, Placed, Sorting.Sort, Admit;
    AdmitFilters(request, now, s);
    var open := Filter(OpenFor(request, now), Placed(request, now, s));
    var sorted := Sorting.Sort(RankedBefore(request), open);
    Sorting.SortPermutes(RankedBefore(request), open);
    Sorting.SameMembers(sorted, open, x);
    forall k | 0 <= k < |sorted| ensures x in [sorted[k]] + sorted[..k] + sorted[k + 1..] <==> x in sorted {
      MoveToFront(sorted, k);
      Sorting.SameMembers([sorted[k]] + sorted[..k] + sorted[k + 1..], sorted, x);
    }
  }

  /** Candidate `i` is listed with the place it has, and with no other. */
  lemma {:induction false} ListedAtItsPlace(
    request: Request, now: Instant, s: seq<AccountRecord>, i: nat, x: AccountRecord)
    requires !request.intent.ProbeRecovery? && DistinctIds(s) && i < |s| && OpenFor(request, now)(s[i])
    requires x.accountId == s[i].accountId
    ensures x in Evaluate(request, now, s).eligible <==> x == At(s[i], Place(request, now, s[..i]))
  {
    hide Evaluate, Place;
    var p := OpenFor(request, now);
    PlacesDoNotMatter(request, now);
    EligibleMembers(request, now, s, x);
    MemberPlaced(p, request, now, s, i);
    hide Filter, OpenFor;
    if x in Filter(p, Placed(request, now, s)) {
      var j := PlacedMember(p, request, now, s, x);
    }
  }

  /** An open candidate without a position appears with different positions in different orders. */
  lemma {:induction false} PlaceMatters(request: Request, now: Instant, a: seq<AccountRecord>, i: nat)
    returns (b: seq<AccountRecord>)
    requires !request.intent.ProbeRecovery? && DistinctIds(a) && |a| > 1 && i < |a|
    requires OpenFor(request, now)(a[i]) && a[i].poolPosition == 0
    ensures multiset(b) == multiset(a) && Evaluate(request, now, b).eligible != Evaluate(request, now, a).eligible
  {
    hide Evaluate, OpenFor, Place;
    var rest := Without(a, i);
    WithoutRearranges(a, i);
    b := if i == 0 then rest + [a[i]] else [a[i]] + rest;
    var k := if i == 0 then |rest| else 0;
    DistinctRearranged(a, b);
    assert b[k] == a[i];
    PlaceAtMost(request, now, a, i);
    PlaceAtMost(request, now, b, k);
    PlaceAtFront(request, now, a);
    PlaceAtFront(request, now, b);
    var x := At(b[k], Place(request, now, b[..k]));
    ListedAtItsPlace(request, now, a, i, x);
    ListedAtItsPlace(request, now, b, k, x);
  }

  /** Everybody who may be leased has a position; when nobody may, the probe is settled. */
  ghost predicate PlanSettled(request: Request, now: Instant, s: seq<AccountRecord>) {
    if Filter(OpenFor(request, now), s) != [] then Positioned(OpenFor(request, now), s)
    else WinnerSettled(UrgencyKeys(request, now), ProbeReadyFor(request, now), request, now, s)
  }

  lemma {:induction false} SettledPlan(request: Request, now: Instant, a: seq<AccountRecord>, b: seq<AccountRecord>)
    requires !request.intent.ProbeRecovery? && DistinctIds(a) && multiset(a) == multiset(b)
    requires PlanSettled(request, now, a)
    ensures SamePlan(Evaluate(request, now, a), Evaluate(request, now, b))
  {
    hide Admit, Filter, Positioned, WinnerSettled, Sorting.Sort, ProbeChoice, Placed, DistinctIds, IdsIdentify;
    DistinctRearranged(a, b);
    RejectedOfPermutation(request, now, a, b);
    if Filter(OpenFor(request, now), a) != [] {
      OpenIgnoreOrder(request, now, a, b);
      SomethingOpen(request, now, a);
    } else {
      SettledAction(request, now, a, b);
      SameKinds(request, now, a, b);
      NothingOpen(request, now, a);
      NothingOpen(request, now, b);
    }
  }

  lemma {:induction false} SomethingOpen(request: Request, now: Instant, s: seq<AccountRecord>)
    requires Filter(OpenFor(request, now), s) != []
    ensures Sorting.Sort(RankedBefore(request), Unblocked(Admit(request, now, s).admitted)) != []
  {
    hide Filter, Placed, Admit;
    PlacesDoNotMatter(request, now);
    AdmitFilters(request, now, s);
    FilterPlaced(OpenFor(request, now), request, now, s);
    Sorting.SortPermutes(RankedBefore(request), Unblocked(Admit(request, now, s).admitted));
  }

  lemma {:induction false} NothingOpen(request: Request, now: Instant, s: seq<AccountRecord>)
    requires Filter(OpenFor(request, now), s) == []
    ensures Sorting.Sort(RankedBefore(request), Unblocked(Admit(request, now, s).admitted)) == []
  {
    hide Filter, Placed, Admit;
    PlacesDoNotMatter(request, now);
    AdmitFilters(request, now, s);
    FilterPlaced(OpenFor(request, now), request, now, s);
  }

  lemma {:induction false} UnsettledPlan(
    request: Request, now: Instant, a: seq<AccountRecord>)
    returns (b: seq<AccountRecord>)
    requires !request.intent.ProbeRecovery? && DistinctIds(a) && |a| > 1 && !PlanSettled(request, now, a)
    ensures multiset(b) == multiset(a) && !SamePlan(Evaluate(request, now, a), Evaluate(request, now, b))
  {
    hide Evaluate, Filter, WinnerSettled, DistinctIds;
    if Filter(OpenFor(request, now), a) != [] {
      var c :| c in a && OpenFor(request, now)(c) && c.poolPosition == 0;
      var i :| 0 <= i < |a| && a[i] == c;
      b := PlaceMatters(request, now, a, i);
    } else {
      var d;
      b, d := UnsettledAction(request, now, a);
      if Evaluate(request, now, b).action == Evaluate(request, now, a).action {
        b := d;
      }
    }
  }

  lemma {:induction false} OnlyOneOrder<T>(a: seq<T>, b: seq<T>)
    requires |a| <= 1 && multiset(a) == multiset(b)
    ensures a == b
  {
    NothingCounts(a, b);
    if a != [] {
      Sorting.SameMembers(a, b, a[0]);
    }
  }

  /**
   The whole plan is the same for every order of two or more candidates if and
   only if all open ones bring positions along, or none is open and the probe
   is settled.
   */
  lemma {:induction false} PlanOrderIff(request: Request, now: Instant, a: seq<AccountRecord>)
    requires !request.intent.ProbeRecovery? && DistinctIds(a)
    ensures |a| <= 1 || PlanSettled(request, now, a) <==>
            forall b :: multiset(b) == multiset(a) ==> SamePlan(Evaluate(request, now, a), Evaluate(request, now, b))
  {
    hide Evaluate, PlanSettled, DistinctIds;
    if |a| <= 1 {
      forall b | multiset(b) == multiset(a) ensures SamePlan(Evaluate(request, now, a), Evaluate(request, now, b)) {
        OnlyOneOrder(a, b);
      }
    } else if PlanSettled(request, now, a) {
      forall b | multiset(b) == multiset(a) ensures SamePlan(Evaluate(request, now, a), Evaluate(request, now, b)) {
        SettledPlan(request, now, a, b);
      }
    } else {
      var b := UnsettledPlan(request, now, a);
    }
  }

  /** Candidates without a position take one from their place in the list, so there the order does matter. */
  lemma {:induction false} UnpositionedOrderMatters()
    ensures exists request: Request, now: Instant, x: AccountRecord, y: AccountRecord ::
              && x.accountId != y.accountId && x.poolPosition == 0
              && Evaluate(request, now, [x, y]).action != Evaluate(request, now, [y, x]).action
  {
    var request := Request(None, Startup, None, None, None, None, None, 85);
    var x := AccountRecord("b", true, true, 0, false, QuotaView(None, None));
    var y := AccountRecord("a", true, true, 1, false, QuotaView(None, None));
    var x1 := x.(poolPosition := 1);
    AdmitTwo(request, x, y);
    AdmitTwo(request, y, x);
    assert CompareString("a", "b") == Less;
    SortTwo(RankedBefore(request), x, y);
    SortTwo(RankedBefore(request), y, x1);
    assert Evaluate(request, 0, [x, y]).action == Select("b");
    assert Evaluate(request, 0, [y, x]).action == Select("a");
  }

  lemma {:induction false} AdmitTwo(request: Request, x: AccountRecord, y: AccountRecord)
    requires request == Request(None, Startup, None, None, None, None, None, 85)
    requires x.enabled && x.authEligible && !x.leasedToOther && x.quota == QuotaView(None, None)
    requires y.enabled && y.authEligible && !y.leasedToOther && y.quota == QuotaView(None, None)
    ensures Unblocked(Admit(request, 0, [x, y]).admitted)
            == [x, if y.poolPosition == 0 then y.(poolPosition := 1) else y]
  {
    var y' := if y.poolPosition == 0 then y.(poolPosition := 1) else y;
    assert [x, y][..1] == [x] && [x][..0] == [];
    assert Admit(request, 0, []) == Admission([], []);
    assert Admit(request, 0, [x]).admitted == [Ranked(x, NotBlocked(true))];
    var adm := [Ranked(x, NotBlocked(true)), Ranked(y', NotBlocked(true))];
    assert Admit(request, 0, [x, y]).admitted == adm;
    UnblockedAppend([], adm[0]);
    UnblockedAppend([adm[0]], adm[1]);
    assert [] + [adm[0]] == [adm[0]] && [adm[0]] + [adm[1]] == adm;
  }

  lemma {:induction false} SortTwo(le: (AccountRecord, AccountRecord) -> bool, x: AccountRecord, y: AccountRecord)
    requires le(x, y)
    ensures Sorting.Sort(le, [x, y]) == [x, y]
  {
    assert [x, y][1..] == [y] && [y][1..] == [];
    assert Sorting.Sort(le, [y]) == Sorting.Insert(le, y, []);
  }
}
