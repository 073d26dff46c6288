/**
 Choosing the leader among candidate pods: the ordinal that the pattern `.*-(\d+)` extracts from
 a pod name, the comparator built on it, and First/Last over the sorted Running candidates.
 */
module Leader {
  import opened Kube
  import opened Sorting

  // --------------------------------------------------------------- decimals

  const INT64_MAX := 0x7fff_ffff_ffff_ffff

  predicate IsDigit(c: char) { '0' <= c <= '9' }

  function DigitChar(d: nat): (c: char)
    requires d < 10
    ensures IsDigit(c) && DigitValue(c) == d
  {
    ('0' as int + d) as char
  }

  function DigitValue(c: char): nat
    requires IsDigit(c)
  {
    c as int - '0' as int
  }

  predicate AllDigits(s: string) { forall c | c in s :: IsDigit(c) }

  /** A number in decimal, as a StatefulSet prints its ordinals. */
  function Decimal(n: nat): (s: string)
    ensures s != "" && AllDigits(s)
  {
    if n < 10 then [DigitChar(n)] else Decimal(n / 10) + [DigitChar(n % 10)]
  }

  function ParseDigits(s: string): nat
    requires AllDigits(s)
  {
    if s == "" then 0 else ParseDigits(s[..|s| - 1]) * 10 + DigitValue(s[|s| - 1])
  }

  /** strconv.Atoi with its error dropped: a number too large for an int comes out as the largest int. */
  function Atoi(s: string): nat
    requires AllDigits(s)
  {
    if ParseDigits(s) <= INT64_MAX then ParseDigits(s) else INT64_MAX
  }

  lemma {:induction false} ParseDecimal(n: nat)
    ensures ParseDigits(Decimal(n)) == n
  {
    if n >= 10 {
      var s := Decimal(n);
      assert s[..|s| - 1] == Decimal(n / 10);
      ParseDecimal(n / 10);
    }
  }

  // ---------------------------------------------------------------- pattern

  /** `.*-(\d+)` can match name with the dash at d and the digits up to e. */
  predicate MatchAt(name: string, d: nat, e: nat) {
    d + 1 < e <= |name| && name[d] == '-' && AllDigits(name[d + 1..e])
  }

  predicate DashAt(name: string, d: nat) {
    d + 1 < |name| && name[d] == '-' && IsDigit(name[d + 1])
  }

  function LastDash(name: string, hi: nat): (r: Option<nat>)
    requires hi <= |name|
    ensures r.Some? ==> r.value < hi && DashAt(name, r.value)
    ensures forall d: nat | d < hi && DashAt(name, d) :: r.Some? && d <= r.value
  {
    if hi == 0 then None
    else if DashAt(name, hi - 1) then Some(hi - 1)
    else LastDash(name, hi - 1)
  }

  function DigitsEnd(name: string, i: nat): (e: nat)
    requires i <= |name|
    ensures i <= e <= |name| && AllDigits(name[i..e])
    ensures e < |name| ==> !IsDigit(name[e])
    decreases |name| - i
  {
    if i < |name| && IsDigit(name[i]) then
      var e := DigitsEnd(name, i + 1);
      assert name[i..e] == [name[i]] + name[i + 1..e];
      e
    else i
  }

  /** The greedy submatch: the last possible dash, then as many digits as follow it. */
  function Submatch(name: string): (r: Option<string>)
    ensures r.Some? ==> r.value != "" && AllDigits(r.value)
  {
    match LastDash(name, |name|)
    case None => None
    case Some(d) =>
      Some(name[d + 1..DigitsEnd(name, d + 1)])
  }

  /** The submatch is absent exactly when the pattern cannot match at all; otherwise it is the
      group of the match with the rightmost dash and, for that dash, the most digits. */
  lemma SubmatchIsGreedy(name: string)
    ensures Submatch(name).None? ==> forall d: nat, e: nat :: !MatchAt(name, d, e)
    ensures Submatch(name).Some? ==> exists d: nat, e: nat ::
              && MatchAt(name, d, e) && Submatch(name).value == name[d + 1..e]
              && forall d': nat, e': nat | MatchAt(name, d', e') :: d' < d || (d' == d && e' <= e)
  {
    var found := LastDash(name, |name|);
    forall d: nat, e: nat | MatchAt(name, d, e)
      ensures found.Some? && d <= found.value
      ensures e <= DigitsEnd(name, d + 1)
    {
      assert name[d + 1] in name[d + 1..e];
      assert DashAt(name, d);
      assert forall i | d < i < e :: name[i] == name[d + 1..e][i - (d + 1)] && IsDigit(name[i]);
    }
    if found.Some? {
      assert MatchAt(name, found.value, DigitsEnd(name, found.value + 1));
    }
  }

  function Ordinal(name: string): Option<nat> {
    match Submatch(name)
    case None => None
    case Some(s) => Some(Atoi(s))
  }

  /** In base-n the dash before n is the last one with a digit after it. */
  lemma LastDashOfMember(base: string, digits: string)
    requires digits != "" && AllDigits(digits)
    ensures var name := base + "-" + digits; LastDash(name, |name|) == Some(|base|)
  {
    var name := base + "-" + digits;
    assert forall i | |base| < i < |name| :: name[i] == digits[i - |base| - 1] && IsDigit(name[i]);
    assert DashAt(name, |base|);
  }

  lemma DigitsEndOfMember(base: string, digits: string)
    requires digits != "" && AllDigits(digits)
    ensures var name := base + "-" + digits; DigitsEnd(name, |base| + 1) == |name| && name[|base| + 1..|name|] == digits
  {
    var name := base + "-" + digits;
    assert forall i | |base| < i < |name| :: name[i] == digits[i - |base| - 1] && IsDigit(name[i]);
  }

  /** The ordinal of a pod named base-n is n, whatever the base, up to the largest int. */
  lemma OrdinalOfMember(base: string, n: nat)
    ensures Ordinal(base + "-" + Decimal(n)) == Some(if n <= INT64_MAX then n else INT64_MAX)
  {
    LastDashOfMember(base, Decimal(n));
    DigitsEndOfMember(base, Decimal(n));
    ParseDecimal(n);
  }

  // ------------------------------------------------------------- comparator

  /** Go's string order. */
  predicate TextLess(a: string, b: string) {
    if b == "" then false
    else if a == "" then true
    else a[0] < b[0] || (a[0] == b[0] && TextLess(a[1..], b[1..]))
  }

  /** a and b agree up to i. */
  predicate AgreeUpTo(a: string, b: string, i: nat) {
    i <= |a| && i <= |b| && a[..i] == b[..i]
  }

  /** The lexicographic order: b is longer, or larger at the first difference. */
  lemma {:induction false} TextLessByPosition(a: string, b: string, i: nat)
    requires AgreeUpTo(a, b, i) && (i == |a| || i == |b| || a[i] != b[i])
    ensures TextLess(a, b) <==> i < |b| && (i == |a| || a[i] < b[i])
  {
    if i > 0 {
      assert a[0] == a[..i][0] == b[..i][0] == b[0];
      assert a[1..][..i - 1] == a[..i][1..] && b[1..][..i - 1] == b[..i][1..];
      TextLessByPosition(a[1..], b[1..], i - 1);
    }
  }

  predicate NameLess(a: string, b: string) {
    var oa, ob := Ordinal(a), Ordinal(b);
    if oa.Some? && ob.Some? then oa.value < ob.value else TextLess(a, b)
  }

  predicate PodLess(p: Candidate, q: Candidate) { NameLess(p.name, q.name) }

  predicate Eligible(p: Candidate) { p.selected && p.phase == PodRunning }

  function RunningOnly(cands: seq<Candidate>): (r: seq<Candidate>)
    ensures forall p :: p in r <==> p in cands && p.selected && p.phase == PodRunning
  {
    if cands == [] then []
    else
      var n := |cands| - 1;
      assert cands == cands[..n] + [cands[n]];
      RunningOnly(cands[..n]) + (if Eligible(cands[n]) then [cands[n]] else [])
  }

  function FindByName(cands: seq<Candidate>, name: string): (r: Option<Candidate>)
    ensures r.Some? ==> r.value in cands && r.value.name == name
    ensures r.None? ==> forall p | p in cands :: p.name != name
  {
    if cands == [] then None
    else if cands[0].name == name then Some(cands[0])
    else FindByName(cands[1..], name)
  }

  /** The first or the last of the candidates in the order of the comparator, None if there is none. */
  function ChooseFrom(spec: LeaderSpec, ps: seq<Candidate>): (r: Option<Candidate>)
    ensures r.None? <==> ps == []
    ensures r.Some? ==> r.value in ps
  {
    if |ps| == 0 then None
    else if |ps| == 1 then Some(ps[0])
    else
      var sorted := SortBy(PodLess, ps);
      assert sorted[0] in multiset(sorted) && sorted[|sorted| - 1] in multiset(sorted);
      Some(if spec.selection == PolicyFirst then sorted[0] else sorted[|sorted| - 1])
  }

  /** getLeader; None stands for the NotFound error. */
  function GetLeader(spec: LeaderSpec, cands: seq<Candidate>): (r: Option<Candidate>)
    ensures r.Some? ==> r.value in cands
    ensures r.Some? && spec.name != "" ==> r.value.name == spec.name
    ensures r.Some? && spec.name == "" ==> r.value.selected && r.value.phase == PodRunning
    ensures r.None? && spec.name != "" ==> forall p | p in cands :: p.name != spec.name
    ensures r.None? && spec.name == "" ==> forall p | p in cands :: !(p.selected && p.phase == PodRunning)
  {
    if spec.name != "" then FindByName(cands, spec.name) else ChooseFrom(spec, RunningOnly(cands))
  }

  method GetLeaderLoop(spec: LeaderSpec, cands: seq<Candidate>) returns (r: Option<Candidate>)
    ensures r == GetLeader(spec, cands)
  {
    if spec.name != "" {
      return FindByName(cands, spec.name);
    }
    var leaders: seq<Candidate> := [];
    for i := 0 to |cands|
      invariant leaders == RunningOnly(cands[..i])
    {
      assert cands[..i + 1][..i] == cands[..i];
      if Eligible(cands[i]) {
        leaders := leaders + [cands[i]];
      }
    }
    assert cands[..|cands|] == cands;
    if |leaders| == 0 {
      return None;
    } else if |leaders| == 1 {
      return Some(leaders[0]);
    }
    leaders := SortBy(PodLess, leaders);
    if spec.selection == PolicyFirst {
      return Some(leaders[0]);
    }
    return Some(leaders[|leaders| - 1]);
  }

  // ------------------------------------------------------- when the comparator is an order

  /** Of two names with ordinals, the one that does not sort later stays before every name without one
      that the other is before. */
  predicate Coherent(ps: seq<Candidate>) {
    forall p, q, r | p in ps && q in ps && r in ps && CrossedBy(p.name, q.name, r.name) :: TextLess(p.name, r.name)
  }

  predicate CrossedBy(a: string, b: string, c: string) {
    && Ordinal(a).Some? && Ordinal(b).Some? && Ordinal(c).None?
    && Ordinal(a).value <= Ordinal(b).value && TextLess(b, c)
  }

  /** All names carry an ordinal, or none does. */
  predicate Uniform(ps: seq<Candidate>) {
    (forall p | p in ps :: Ordinal(p.name).Some?) || (forall p | p in ps :: Ordinal(p.name).None?)
  }

  lemma UniformIsCoherent(ps: seq<Candidate>)
    requires Uniform(ps)
    ensures Coherent(ps)
  {
  }

  lemma {:induction false} TextTotal(a: string, b: string)
    ensures !(TextLess(a, b) && TextLess(b, a))
  {
    if a != "" && b != "" && a[0] == b[0] {
      TextTotal(a[1..], b[1..]);
    }
  }

  lemma {:induction false} TextTransitive(a: string, b: string, c: string)
    requires !TextLess(b, a) && !TextLess(c, b)
    ensures !TextLess(c, a)
  {
    if a != "" && b != "" && c != "" && a[0] == b[0] == c[0] {
      TextTransitive(a[1..], b[1..], c[1..]);
    }
  }

  lemma NameTotal(a: string, b: string)
    ensures !(NameLess(a, b) && NameLess(b, a))
  {
    TextTotal(a, b);
  }

  lemma {:induction false} TextAntisymmetric(a: string, b: string)
    requires !TextLess(a, b) && !TextLess(b, a)
    ensures a == b
  {
    if a != "" && b != "" {
      TextAntisymmetric(a[1..], b[1..]);
      assert a == [a[0]] + a[1..] && b == [b[0]] + b[1..];
    }
  }

  /** What does not come before is transitive on three names that do not cross. */
  lemma NameTransitive(a: string, b: string, c: string)
    requires CrossedBy(a, b, c) ==> TextLess(a, c)
    requires CrossedBy(b, c, a) ==> TextLess(b, a)
    requires CrossedBy(c, a, b) ==> TextLess(c, b)
    requires !NameLess(b, a) && !NameLess(c, b)
    ensures !NameLess(c, a)
  {
    TextTotal(a, c);
    TextTotal(a, b);
    TextTotal(b, c);
    if !TextLess(b, a) && !TextLess(c, b) {
      TextTransitive(a, b, c);
    }
    if a != b && !TextLess(b, a) && !TextLess(a, b) {
      TextAntisymmetric(a, b);
    }
    if b != c && !TextLess(c, b) && !TextLess(b, c) {
      TextAntisymmetric(b, c);
    }
    if a != c && !TextLess(a, c) && !TextLess(c, a) {
      TextAntisymmetric(a, c);
    }
  }

  lemma CoherentIsOrder(ps: seq<Candidate>)
    requires Coherent(ps)
    ensures WeakOrder(PodLess, ps)
  {
    forall p, q | p in ps && q in ps ensures NotAfter(PodLess, p, q) || NotAfter(PodLess, q, p) {
      NameTotal(p.name, q.name);
    }
    forall p, q, r | p in ps && q in ps && r in ps && NotAfter(PodLess, p, q) && NotAfter(PodLess, q, r)
      ensures NotAfter(PodLess, p, r)
    {
      NameTransitive(p.name, q.name, r.name);
    }
  }

  lemma OrderIsCoherent(ps: seq<Candidate>)
    requires WeakOrder(PodLess, ps)
    ensures Coherent(ps)
  {
    forall p, q, r | p in ps && q in ps && r in ps && CrossedBy(p.name, q.name, r.name)
      ensures TextLess(p.name, r.name)
    {
      TextTotal(q.name, r.name);
      assert NotAfter(PodLess, p, q) && NotAfter(PodLess, q, r);
      assert NotAfter(PodLess, p, r);
      if !TextLess(p.name, r.name) {
        TextAntisymmetric(p.name, r.name);
      }
    }
  }

  /** Exactly where the comparator is a strict weak order: where no two names with ordinals cross a name
      without one. In particular where all names have an ordinal, or none has. */
  lemma OrderIff(ps: seq<Candidate>)
    ensures WeakOrder(PodLess, ps) <==> Coherent(ps)
    ensures Uniform(ps) ==> Coherent(ps)
  {
    if Coherent(ps) {
      CoherentIsOrder(ps);
    }
    if WeakOrder(PodLess, ps) {
      OrderIsCoherent(ps);
    }
    if Uniform(ps) {
      UniformIsCoherent(ps);
    }
  }

  // ------------------------------------------------------- which pod is chosen

  /** p is at the end of the order that the policy asks for: nothing comes before it under First,
      nothing after it under any other policy. */
  ghost predicate Extreme(spec: LeaderSpec, ps: seq<Candidate>, p: Candidate) {
    p in ps && forall q | q in ps :: if spec.selection == PolicyFirst then !PodLess(q, p) else !PodLess(p, q)
  }

  ghost predicate OneExtreme(spec: LeaderSpec, ps: seq<Candidate>) {
    forall p, q | Extreme(spec, ps, p) && Extreme(spec, ps, q) :: p == q
  }

  function EndOf(spec: LeaderSpec, sorted: seq<Candidate>): Candidate
    requires sorted != []
  {
    if spec.selection == PolicyFirst then sorted[0] else sorted[|sorted| - 1]
  }

  lemma EndIsExtreme(spec: LeaderSpec, ps: seq<Candidate>, sorted: seq<Candidate>)
    requires WeakOrder(PodLess, ps) && SortOf(PodLess, ps, sorted) && ps != []
    ensures Extreme(spec, ps, EndOf(spec, sorted))
  {
    forall q | q in ps {
      SortedEnds(PodLess, ps, sorted, q);
    }
    assert ps[0] in ps;
  }

  /** Every result that the sort may give leads to the same choice. */
  ghost predicate Determined(spec: LeaderSpec, ps: seq<Candidate>)
    requires ps != []
  {
    forall s, t | SortOf(PodLess, ps, s) && SortOf(PodLess, ps, t) :: EndOf(spec, s) == EndOf(spec, t)
  }

  lemma OrderDetermines(spec: LeaderSpec, ps: seq<Candidate>)
    requires WeakOrder(PodLess, ps) && ps != []
    ensures Determined(spec, ps) <==> OneExtreme(spec, ps)
  {
    if OneExtreme(spec, ps) {
      forall s, t | SortOf(PodLess, ps, s) && SortOf(PodLess, ps, t) ensures EndOf(spec, s) == EndOf(spec, t) {
        EndIsExtreme(spec, ps, s);
        EndIsExtreme(spec, ps, t);
      }
    }
    if Determined(spec, ps) {
      forall p, q | Extreme(spec, ps, p) && Extreme(spec, ps, q) ensures p == q {
        var s := SortWithEnd(PodLess, ps, p, spec.selection == PolicyFirst);
        var t := SortWithEnd(PodLess, ps, q, spec.selection == PolicyFirst);
      }
    }
  }

  /** Where the comparator is an order the choice is determined if and only if one pod alone is extreme. */
  lemma DeterminedIff(spec: LeaderSpec, ps: seq<Candidate>)
    requires Coherent(ps) && ps != []
    ensures Determined(spec, ps) <==> OneExtreme(spec, ps)
  {
    CoherentIsOrder(ps);
    OrderDetermines(spec, ps);
  }

  lemma ChosenIsExtreme(spec: LeaderSpec, ps: seq<Candidate>)
    requires Coherent(ps) && ps != []
    ensures Extreme(spec, ps, ChooseFrom(spec, ps).value)
  {
    CoherentIsOrder(ps);
    if |ps| > 1 {
      SortBySorted(PodLess, ps, ps);
      EndIsExtreme(spec, ps, SortBy(PodLess, ps));
    } else {
      EndIsExtreme(spec, ps, ps);
    }
  }

  /** Where the comparator is an order, no other selected and Running candidate comes before the leader
      under First, or after it under any other policy; there is no leader exactly when there is no such
      candidate. */
  lemma LeaderIsExtreme(spec: LeaderSpec, cands: seq<Candidate>)
    requires spec.name == "" && Coherent(RunningOnly(cands))
    ensures GetLeader(spec, cands).None? <==> forall q | q in cands :: !(q.selected && q.phase == PodRunning)
    ensures GetLeader(spec, cands).Some? ==>
              var leader := GetLeader(spec, cands).value;
              && leader in cands && leader.selected && leader.phase == PodRunning
              && (forall q | q in cands && q.selected && q.phase == PodRunning ::
                    if spec.selection == PolicyFirst then !PodLess(q, leader) else !PodLess(leader, q))
  {
    LeaderIsExtremeOfRunning(spec, cands);
  }

  lemma LeaderIsExtremeOfRunning(spec: LeaderSpec, cands: seq<Candidate>)
    requires spec.name == "" && Coherent(RunningOnly(cands))
    ensures GetLeader(spec, cands).None? <==> RunningOnly(cands) == []
    ensures GetLeader(spec, cands).Some? ==> Extreme(spec, RunningOnly(cands), GetLeader(spec, cands).value)
  {
    if RunningOnly(cands) != [] {
      ChosenIsExtreme(spec, RunningOnly(cands));
    }
  }

  lemma SameRunning(cands: seq<Candidate>, cands': seq<Candidate>)
    requires multiset(cands) == multiset(cands')
    ensures forall p :: p in RunningOnly(cands) <==> p in RunningOnly(cands')
    ensures RunningOnly(cands) == [] <==> RunningOnly(cands') == []
  {
    var a, b := RunningOnly(cands), RunningOnly(cands');
    SameElements(cands, cands');
    assert a != [] ==> a[0] in b;
    assert b != [] ==> b[0] in a;
  }

  /** If one Running pod alone is extreme, the order in which the API lists the pods does not matter. */
  lemma LeaderIgnoresOrder(spec: LeaderSpec, cands: seq<Candidate>, cands': seq<Candidate>)
    requires spec.name == "" && multiset(cands) == multiset(cands')
    requires Coherent(RunningOnly(cands)) && OneExtreme(spec, RunningOnly(cands))
    ensures GetLeader(spec, cands) == GetLeader(spec, cands')
  {
    SameRunning(cands, cands');
    LeaderIsExtremeOfRunning(spec, cands);
    LeaderIsExtremeOfRunning(spec, cands');
    if RunningOnly(cands) != [] {
      SameExtremes(spec, RunningOnly(cands), RunningOnly(cands'), GetLeader(spec, cands').value);
    }
  }

  lemma SameExtremes(spec: LeaderSpec, ps: seq<Candidate>, ps': seq<Candidate>, p: Candidate)
    requires forall q :: q in ps <==> q in ps'
    ensures Extreme(spec, ps, p) <==> Extreme(spec, ps', p)
  {
  }

  /** If it is not alone, it may: two Running pods of which neither comes before the other, such as
      a-1 and b-1, are chosen by their place in the list. */
  lemma TiedPodsFollowListOrder(spec: LeaderSpec, p: Candidate, q: Candidate)
    requires spec.name == "" && Eligible(p) && Eligible(q) && p != q && !PodLess(p, q) && !PodLess(q, p)
    ensures !OneExtreme(spec, [p, q])
    ensures GetLeader(spec, [p, q]) != GetLeader(spec, [q, p])
  {
    PairChoice(spec, p, q);
    PairChoice(spec, q, p);
    TieHasTwoExtremes(spec, p, q);
  }

  lemma TieExample()
    ensures !NameLess("a-1", "b-1") && !NameLess("b-1", "a-1")
  {
    assert Decimal(1) == "1";
    OrdinalOfMember("a", 1);
    OrdinalOfMember("b", 1);
    assert "a" + "-" + "1" == "a-1" && "b" + "-" + "1" == "b-1";
  }

  lemma TieHasTwoExtremes(spec: LeaderSpec, p: Candidate, q: Candidate)
    requires p != q && !PodLess(p, q) && !PodLess(q, p)
    ensures !OneExtreme(spec, [p, q])
  {
    NameTotal(p.name, p.name);
    NameTotal(q.name, q.name);
    assert Extreme(spec, [p, q], p) && Extreme(spec, [p, q], q);
  }

  lemma PairChoice(spec: LeaderSpec, p: Candidate, q: Candidate)
    requires spec.name == "" && Eligible(p) && Eligible(q) && !PodLess(q, p)
    ensures GetLeader(spec, [p, q]) == Some(if spec.selection == PolicyFirst then p else q)
  {
    var ps := [p, q];
    RunningPair(p, q);
    SortedPair(p, q);
    ChooseSorted(spec, ps, ps);
  }

  lemma ChooseSorted(spec: LeaderSpec, ps: seq<Candidate>, sorted: seq<Candidate>)
    requires |ps| > 1 && SortBy(PodLess, ps) == sorted
    ensures ChooseFrom(spec, ps) == Some(EndOf(spec, sorted))
  {
  }

  lemma RunningPair(p: Candidate, q: Candidate)
    requires Eligible(p) && Eligible(q)
    ensures RunningOnly([p, q]) == [p, q]
  {
    assert [p, q][..1] == [p] && [p][..0] == [];
    assert RunningOnly([p]) == [p];
  }

  lemma SortedPair(p: Candidate, q: Candidate)
    requires !PodLess(q, p)
    ensures SortBy(PodLess, [p, q]) == [p, q]
  {
    assert [p, q][1..] == [q] && [q][1..] == [];
    assert SortBy(PodLess, [q]) == InsertBy(PodLess, q, []) == [q];
    assert InsertBy(PodLess, p, [q]) == [p] + [q];
  }

  // ------------------------------------------------------- one StatefulSet

  /** Pods of one StatefulSet: named base-n with n an int, no two of them equally named. */
  ghost predicate SetMembers(base: string, ps: seq<Candidate>) {
    && (forall p | p in ps :: exists n: nat | n <= INT64_MAX :: p.name == base + "-" + Decimal(n))
    && (forall p, q | p in ps && q in ps && p.name == q.name :: p == q)
  }

  ghost function MemberIndex(base: string, p: Candidate): (n: nat)
    requires exists n: nat | n <= INT64_MAX :: p.name == base + "-" + Decimal(n)
    ensures n <= INT64_MAX && p.name == base + "-" + Decimal(n) && Ordinal(p.name) == Some(n)
  {
    var n: nat :| n <= INT64_MAX && p.name == base + "-" + Decimal(n);
    OrdinalOfMember(base, n);
    n
  }

  /** The number a pod sorts by; -1 for a name without one. */
  function OrdinalOf(p: Candidate): int {
    match Ordinal(p.name)
    case None => -1
    case Some(n) => n
  }

  /** On one StatefulSet the ordinal of base-n is n, and the comparator is the order of the ordinals,
      which distinct pods do not share: a strict total order, in which one pod alone is extreme. */
  lemma MembersAreOrdered(base: string, ps: seq<Candidate>)
    requires SetMembers(base, ps)
    ensures Coherent(ps) && forall p | p in ps :: OrdinalOf(p) == MemberIndex(base, p)
    ensures forall p, q | p in ps && q in ps :: PodLess(p, q) <==> OrdinalOf(p) < OrdinalOf(q)
    ensures forall p, q | p in ps && q in ps && OrdinalOf(p) == OrdinalOf(q) :: p == q
    ensures forall spec :: OneExtreme(spec, ps)
  {
    forall p | p in ps ensures Ordinal(p.name) == Some(MemberIndex(base, p)) {}
    UniformIsCoherent(ps);
    forall p, q | p in ps && q in ps && OrdinalOf(p) == OrdinalOf(q) ensures p == q {
      assert MemberIndex(base, p) == MemberIndex(base, q);
      assert p.name == q.name;
    }
  }

  /** For one StatefulSet the leader is the Running member with the least ordinal under First and
      with the greatest under any other policy, whatever the order of the list. */
  lemma MemberLeader(base: string, spec: LeaderSpec, cands: seq<Candidate>, cands': seq<Candidate>)
    requires spec.name == "" && SetMembers(base, RunningOnly(cands)) && multiset(cands) == multiset(cands')
    ensures GetLeader(spec, cands) == GetLeader(spec, cands')
    ensures GetLeader(spec, cands).Some? ==> forall p | p in cands && p.selected && p.phase == PodRunning ::
              var r := GetLeader(spec, cands).value;
              if spec.selection == PolicyFirst then OrdinalOf(r) <= OrdinalOf(p) else OrdinalOf(p) <= OrdinalOf(r)
  {
    MembersAreOrdered(base, RunningOnly(cands));
    LeaderIgnoresOrder(spec, cands, cands');
    LeaderIsExtremeOfRunning(spec, cands);
  }

  /** The comparator is no order at all once names with and without an ordinal mix. */
  lemma MixedNamesCycle()
    ensures NameLess("b-1", "a-2") && NameLess("a-2", "az") && NameLess("az", "b-1")
  {
    assert Decimal(1) == "1" && Decimal(2) == "2";
    OrdinalOfMember("b", 1);
    OrdinalOfMember("a", 2);
    assert "b" + "-" + "1" == "b-1" && "a" + "-" + "2" == "a-2";
    assert LastDash("az", 2) == LastDash("az", 1) == LastDash("az", 0);
    assert TextLess("-2", "z");
    assert "a-2"[1..] == "-2" && "az"[1..] == "z";
  }
}
