/**
 * The Technology record that every store, page and card of the tracker works
 * on, and the list and string helpers they share: `filter`, `map`, counting
 * by status, the rounded percentage, `trim` and `includes`.
 *
 * A JavaScript object with a missing property is modelled by the record's
 * blank value for that field: `NoId`, `""`, `None` or `[]`.  A partial update
 * (`{...tech, ...updates}`) is a `Patch` whose `None` fields are absent.
 */
module Technologies {
  import opened Wrappers

  // ---------------------------------------------------------------------
  // Ids and the two equalities the code uses on them
  // ---------------------------------------------------------------------

  /** An id as it can appear in a stored or imported record. */
  datatype Id = NumId(n: int) | StrId(s: string) | NoId

  predicate IsDigit(c: char) {
    '0' <= c <= '9'
  }

  predicate AllDigits(s: string) {
    forall i | 0 <= i < |s| :: IsDigit(s[i])
  }

  /** The value of a string of decimal digits (the empty string is 0). */
  function DecimalValue(s: string): nat
    requires AllDigits(s)
    decreases |s|
  {
    if s == [] then 0
    else 10 * DecimalValue(s[..|s| - 1]) + (s[|s| - 1] as int - '0' as int)
  }

  /**
   * `Number(id)`: `None` stands for NaN.  A number is itself, a string of
   * decimal digits is its value (`Number("") === 0`), anything else and a
   * missing id are NaN.
   */
  function NumberOf(id: Id): Option<int> {
    match id
    case NumId(n) => Some(n)
    case StrId(s) => if AllDigits(s) then Some(DecimalValue(s)) else None
    case NoId => None
  }

  /** `Number(a) === Number(b)`: NaN is equal to nothing, itself included. */
  predicate NumericEq(a: Id, b: Id) {
    NumberOf(a).Some? && NumberOf(a) == NumberOf(b)
  }

  /** Truthiness of an id (`tech.id && ...`). */
  predicate IdTruthy(id: Id) {
    match id
    case NumId(n) => n != 0
    case StrId(s) => s != ""
    case NoId => false
  }

  /** The two equalities differ: a digit string matches its number only numerically. */
  lemma NumericIsNotStrict()
    ensures NumericEq(StrId("5"), NumId(5)) && StrId("5") != NumId(5)
  {
    assert AllDigits("5");
    assert DecimalValue("5") == 10 * DecimalValue("") + 5;
  }

  /** A record without a numeric id never matches itself numerically, though it does strictly. */
  lemma NumericNotReflexive(id: Id)
    requires NumberOf(id).None?
    ensures !NumericEq(id, id) && id == id
  {
  }

  // ---------------------------------------------------------------------
  // The record, partial updates and the three statuses
  // ---------------------------------------------------------------------

  /**
   * A Technology.  `createdAt`, `updatedAt` and `deadline` are clock readings
   * (integers) instead of ISO strings; `progress` is the numeric field the
   * form-based manager sets on new records.  `category` is optional because
   * a record can reach the search box without one, and reading that absence
   * there is an error rather than a blank.
   */
  datatype Tech = Tech(
    id: Id,
    title: string,
    description: string,
    category: Option<string>,
    difficulty: string,
    status: string,
    notes: string,
    resources: seq<string>,
    createdAt: Option<int>,
    updatedAt: Option<int>,
    deadline: Option<int>,
    progress: Option<int>)

  /** The empty object `{}`: every field absent. */
  const Blank: Tech := Tech(NoId, "", "", None, "", "", "", [], None, None, None, None)

  /** A partial record: `None` means the property is absent from the object. */
  datatype Patch = Patch(
    id: Option<Id>,
    title: Option<string>,
    description: Option<string>,
    category: Option<string>,
    difficulty: Option<string>,
    status: Option<string>,
    notes: Option<string>,
    resources: Option<seq<string>>,
    deadline: Option<Option<int>>)

  /** The patch `{}`. */
  const NoChange: Patch := Patch(None, None, None, None, None, None, None, None, None)

  /** The patch `{ status }`. */
  function StatusPatch(status: string): Patch {
    NoChange.(status := Some(status))
  }

  function Pick<T>(o: Option<T>, keep: T): T {
    match o
    case Some(v) => v
    case None => keep
  }

  /** `{ ...t, ...p }`: a present patch field overrides, an absent one keeps the record's. */
  function Merge(t: Tech, p: Patch): Tech {
    Tech(Pick(p.id, t.id), Pick(p.title, t.title), Pick(p.description, t.description),
         if p.category.Some? then p.category else t.category, Pick(p.difficulty, t.difficulty),
         Pick(p.status, t.status), Pick(p.notes, t.notes), Pick(p.resources, t.resources),
         t.createdAt, t.updatedAt, Pick(p.deadline, t.deadline), t.progress)
  }

  /** Merging the empty patch changes nothing, and merging a patch twice is merging it once. */
  lemma MergeLaws(t: Tech, p: Patch)
    ensures Merge(t, NoChange) == t
    ensures Merge(Merge(t, p), p) == Merge(t, p)
  {
  }

  /** `{ ...t, status }` changes the status and nothing else. */
  lemma MergeStatusOnly(t: Tech, s: string)
    ensures Merge(t, StatusPatch(s)) == t.(status := s)
  {
  }

  const NotStarted: string := "not-started"
  const InProgress: string := "in-progress"
  const Completed: string := "completed"

  predicate KnownStatus(s: string) {
    s == NotStarted || s == InProgress || s == Completed
  }

  /** The order `['not-started', 'in-progress', 'completed']` the status cycles through. */
  const StatusOrder: seq<string> := [NotStarted, InProgress, Completed]

  /** `s.indexOf(x)`: the first position holding `x`, or -1. */
  function IndexOf(s: seq<string>, x: string): (r: int)
    ensures -1 <= r < |s|
    ensures r >= 0 ==> s[r] == x && forall j | 0 <= j < r :: s[j] != x
    ensures r == -1 ==> forall j | 0 <= j < |s| :: s[j] != x
    decreases |s|
  {
    if s == [] then -1
    else if s[0] == x then 0
    else
      var k := IndexOf(s[1..], x);
      if k == -1 then -1 else k + 1
  }

  /**
   * `statuses[(statuses.indexOf(status) + 1) % statuses.length]`: the status
   * after `status` in the cycle; an unknown status is at index -1, so it goes
   * to index 0.
   */
  function CycleStatus(status: string): (r: string)
    ensures KnownStatus(r)
  {
    StatusOrder[(IndexOf(StatusOrder, status) + 1) % |StatusOrder|]
  }

  /** The cycle goes not-started, in-progress, completed and back; anything else restarts it. */
  lemma CycleSteps(status: string)
    ensures CycleStatus(NotStarted) == InProgress
    ensures CycleStatus(InProgress) == Completed
    ensures CycleStatus(Completed) == NotStarted
    ensures !KnownStatus(status) ==> CycleStatus(status) == NotStarted
  {
    assert IndexOf(StatusOrder, NotStarted) == 0;
    assert IndexOf(StatusOrder, InProgress) == 1 by {
      assert StatusOrder[1..] == [InProgress, Completed];
    }
    assert IndexOf(StatusOrder, Completed) == 2 by {
      assert StatusOrder[1..] == [InProgress, Completed];
      assert StatusOrder[1..][1..] == [Completed];
      assert IndexOf([Completed], Completed) == 0;
      assert IndexOf([InProgress, Completed], Completed) == 1;
    }
    if !KnownStatus(status) {
      assert IndexOf(StatusOrder, status) == -1;
    }
  }

  /** Three steps bring every known status back to itself. */
  lemma CycleThree(status: string)
    requires KnownStatus(status)
    ensures CycleStatus(CycleStatus(CycleStatus(status))) == status
  {
    CycleSteps(status);
  }

  // ---------------------------------------------------------------------
  // Array.prototype.filter and .map, specialised to a predicate
  // ---------------------------------------------------------------------

  /** `s.filter(keep)`. */
  function Filter<T(==)>(s: seq<T>, keep: T -> bool): (r: seq<T>)
    ensures |r| <= |s|
    ensures forall i | 0 <= i < |r| :: r[i] in s && keep(r[i])
    ensures forall i | 0 <= i < |s| :: keep(s[i]) ==> s[i] in r
    decreases |s|
  {
    if s == [] then []
    else (if keep(s[0]) then [s[0]] else []) + Filter(s[1..], keep)
  }

  /** Filtering keeps the order: it distributes over concatenation. */
  lemma {:induction false} FilterConcat<T>(a: seq<T>, b: seq<T>, keep: T -> bool)
    ensures Filter(a + b, keep) == Filter(a, keep) + Filter(b, keep)
    decreases |a|
  {
    if a == [] {
      assert a + b == b;
    } else {
      assert (a + b)[1..] == a[1..] + b;
      FilterConcat(a[1..], b, keep);
    }
  }

  /** A filter that rejects nothing is the identity; one that keeps nothing is empty. */
  lemma FilterAllOrNothing<T>(s: seq<T>, keep: T -> bool)
    ensures (forall i | 0 <= i < |s| :: keep(s[i])) ==> Filter(s, keep) == s
    ensures (forall i | 0 <= i < |s| :: !keep(s[i])) ==> Filter(s, keep) == []
  {
    if forall i | 0 <= i < |s| :: keep(s[i]) {
      FilterAll(s, keep);
    }
    if forall i | 0 <= i < |s| :: !keep(s[i]) {
      FilterNone(s, keep);
    }
  }

  lemma {:induction false} FilterAll<T>(s: seq<T>, keep: T -> bool)
    requires forall i | 0 <= i < |s| :: keep(s[i])
    ensures Filter(s, keep) == s
    decreases |s|
  {
    if s != [] {
      assert forall i | 0 <= i < |s[1..]| :: s[1..][i] == s[i + 1];
      FilterAll(s[1..], keep);
    }
  }

  lemma {:induction false} FilterNone<T>(s: seq<T>, keep: T -> bool)
    requires forall i | 0 <= i < |s| :: !keep(s[i])
    ensures Filter(s, keep) == []
    decreases |s|
  {
    if s != [] {
      assert forall i | 0 <= i < |s[1..]| :: s[1..][i] == s[i + 1];
      FilterNone(s[1..], keep);
    }
  }

  /** Filtering twice by the same predicate is filtering once. */
  lemma {:induction false} FilterIdempotent<T>(s: seq<T>, keep: T -> bool)
    ensures Filter(Filter(s, keep), keep) == Filter(s, keep)
    decreases |s|
  {
    if s != [] {
      FilterIdempotent(s[1..], keep);
      var head := if keep(s[0]) then [s[0]] else [];
      FilterConcat(head, Filter(s[1..], keep), keep);
      FilterAllOrNothing(head, keep);
    }
  }

  /** A filter shortens the sequence exactly when it rejects some element. */
  lemma {:induction false} FilterShrinks<T>(s: seq<T>, keep: T -> bool)
    ensures |Filter(s, keep)| < |s| <==> exists i | 0 <= i < |s| :: !keep(s[i])
    decreases |s|
  {
    if s != [] {
      FilterShrinks(s[1..], keep);
      if exists i | 0 <= i < |s[1..]| :: !keep(s[1..][i]) {
        var i :| 0 <= i < |s[1..]| && !keep(s[1..][i]);
        assert !keep(s[i + 1]);
      }
      if exists i | 0 <= i < |s| :: !keep(s[i]) {
        var i :| 0 <= i < |s| && !keep(s[i]);
        if i > 0 {
          assert !keep(s[1..][i - 1]);
        }
      }
    }
  }

  /** Every element is kept by `keep` or by its negation, never by both. */
  lemma {:induction false} FilterComplement<T>(s: seq<T>, keep: T -> bool, drop: T -> bool)
    requires forall x :: drop(x) == !keep(x)
    ensures |Filter(s, keep)| + |Filter(s, drop)| == |s|
    decreases |s|
  {
    if s != [] {
      FilterComplement(s[1..], keep, drop);
    }
  }

  /** Filtering by `p` and then by `q` is filtering once by their conjunction. */
  lemma {:induction false} FilterFilter<T>(s: seq<T>, p: T -> bool, q: T -> bool, both: T -> bool)
    requires forall x :: both(x) == (p(x) && q(x))
    ensures Filter(Filter(s, p), q) == Filter(s, both)
    decreases |s|
  {
    if s != [] {
      FilterFilter(s[1..], p, q, both);
      var head := if p(s[0]) then [s[0]] else [];
      FilterConcat(head, Filter(s[1..], p), q);
    }
  }

  /** Two predicates that agree on every element filter alike. */
  lemma {:induction false} FilterCongruent<T>(s: seq<T>, p: T -> bool, q: T -> bool)
    requires forall i | 0 <= i < |s| :: p(s[i]) == q(s[i])
    ensures Filter(s, p) == Filter(s, q)
    decreases |s|
  {
    if s != [] {
      assert forall i | 0 <= i < |s[1..]| :: s[1..][i] == s[i + 1];
      FilterCongruent(s[1..], p, q);
    }
  }

  /** `s.findIndex(p)`, with `None` for -1: the first position whose element satisfies `p`. */
  function FindFirst<T>(s: seq<T>, p: T -> bool): (r: Option<nat>)
    ensures r.Some? ==> r.value < |s| && p(s[r.value])
    ensures r.Some? ==> forall j | 0 <= j < r.value :: !p(s[j])
    ensures r.None? ==> forall j | 0 <= j < |s| :: !p(s[j])
    decreases |s|
  {
    if s == [] then None
    else if p(s[0]) then Some(0)
    else match FindFirst(s[1..], p)
         case Some(k) => Some(k + 1)
         case None => None
  }

  /** `s.find(p)`: the first element satisfying `p`. */
  function Find<T>(s: seq<T>, p: T -> bool): (r: Option<T>)
    ensures r.Some? <==> exists k | 0 <= k < |s| :: p(s[k])
    ensures r.Some? ==> exists k | 0 <= k < |s| :: s[k] == r.value && p(s[k]) && forall j | 0 <= j < k :: !p(s[j])
  {
    match FindFirst(s, p)
    case Some(k) => Some(s[k])
    case None => None
  }

  /** `s.map(x => hit(x) ? f(x) : x)`. */
  function MapWhere<T>(s: seq<T>, hit: T -> bool, f: T -> T): (r: seq<T>)
    ensures |r| == |s|
    ensures forall i | 0 <= i < |s| :: r[i] == if hit(s[i]) then f(s[i]) else s[i]
    decreases |s|
  {
    if s == [] then []
    else [if hit(s[0]) then f(s[0]) else s[0]] + MapWhere(s[1..], hit, f)
  }

  /** `s.map(f)`. */
  function MapAll<T>(s: seq<T>, f: T -> T): (r: seq<T>)
    ensures |r| == |s|
    ensures forall i | 0 <= i < |s| :: r[i] == f(s[i])
    decreases |s|
  {
    if s == [] then [] else [f(s[0])] + MapAll(s[1..], f)
  }

  /** `t => t.id === id` and its negation. */
  function IdIs(id: Id): Tech -> bool {
    (t: Tech) => t.id == id
  }

  function IdIsNot(id: Id): Tech -> bool {
    (t: Tech) => t.id != id
  }

  /** `t => ({ ...t, ...p })`. */
  function MergeWith(p: Patch): Tech -> Tech {
    (t: Tech) => Merge(t, p)
  }

  /** `t => Number(t.id) === Number(id)` and its negation. */
  function NumberIs(id: Id): Tech -> bool {
    (t: Tech) => NumericEq(t.id, id)
  }

  function NumberIsNot(id: Id): Tech -> bool {
    (t: Tech) => !NumericEq(t.id, id)
  }

  // ---------------------------------------------------------------------
  // Counting by status and the rounded percentage
  // ---------------------------------------------------------------------

  function HasStatus(status: string): Tech -> bool {
    (t: Tech) => t.status == status
  }

  /** `techs.filter(t => t.status === status).length`. */
  function CountStatus(techs: seq<Tech>, status: string): nat {
    |Filter(techs, HasStatus(status))|
  }

  function HasOtherStatus(status: string): Tech -> bool {
    (t: Tech) => t.status != status
  }

  /** `t => ({ ...t, status })` and `t => ({ ...t, notes })`. */
  function SetStatus(status: string): Tech -> Tech {
    (t: Tech) => t.(status := status)
  }

  function SetNotes(notes: string): Tech -> Tech {
    (t: Tech) => t.(notes := notes)
  }

  function HasUnknownStatus(): Tech -> bool {
    (t: Tech) => !KnownStatus(t.status)
  }

  /**
   * The three status counts and the records of any other status partition
   * the collection.
   */
  lemma {:induction false} StatusPartition(techs: seq<Tech>)
    ensures CountStatus(techs, Completed) + CountStatus(techs, InProgress)
            + CountStatus(techs, NotStarted) + |Filter(techs, HasUnknownStatus())| == |techs|
    decreases |techs|
  {
    if techs != [] {
      StatusPartition(techs[1..]);
    }
  }

  /** Every count is bounded by the length, and they sum to it when every status is known. */
  lemma StatusCountsBounded(techs: seq<Tech>)
    ensures CountStatus(techs, Completed) + CountStatus(techs, InProgress)
            + CountStatus(techs, NotStarted) <= |techs|
    ensures (forall i | 0 <= i < |techs| :: KnownStatus(techs[i].status)) ==>
              CountStatus(techs, Completed) + CountStatus(techs, InProgress)
              + CountStatus(techs, NotStarted) == |techs|
  {
    StatusPartition(techs);
    FilterAllOrNothing(techs, HasUnknownStatus());
  }

  /**
   * `part / whole * 100` rounded half up (`Math.round`), and 0 for an empty
   * whole (`total > 0 ? ... : 0`, or `NaN || 0`).
   */
  function Percent(part: nat, whole: nat): (r: nat)
    ensures whole == 0 ==> r == 0
    ensures whole > 0 ==> 2 * whole * r <= 200 * part + whole < 2 * whole * r + 2 * whole
    ensures part <= whole ==> r <= 100
  {
    if whole == 0 then 0
    else
      var r := (200 * part + whole) / (2 * whole);
      DivBounds(200 * part + whole, 2 * whole);
      assert part <= whole ==> 200 * part + whole < 2 * whole * 101 by {
        if part <= whole {
          MulMono(part, whole, 200);
        }
      }
      QuotientBelow(200 * part + whole, 2 * whole, 101);
      r
  }

  lemma DivBounds(n: nat, d: nat)
    requires d > 0
    ensures d * (n / d) <= n < d * (n / d) + d
  {
  }

  lemma MulMono(a: nat, b: nat, k: nat)
    requires a <= b
    ensures k * a <= k * b
  {
  }

  lemma QuotientBelow(n: nat, d: nat, m: nat)
    requires d > 0
    ensures n < d * m ==> n / d < m
  {
    DivBounds(n, d);
    if n / d >= m {
      MulMono(m, n / d, d);
    }
  }

  /** All done is 100 percent, nothing done is 0 percent. */
  lemma PercentEnds(whole: nat)
    requires whole > 0
    ensures Percent(whole, whole) == 100 && Percent(0, whole) == 0
  {
    QuotientIs(200 * whole + whole, 2 * whole, 100);
    QuotientIs(whole, 2 * whole, 0);
  }

  /** A quotient pinned between two multiples of the divisor. */
  lemma QuotientIs(n: nat, d: nat, q: nat)
    requires d > 0 && d * q <= n < d * q + d
    ensures n / d == q
  {
    DivBounds(n, d);
    if n / d > q {
      MulMono(q + 1, n / d, d);
    } else if n / d < q {
      MulMono(n / d + 1, q, d);
    }
  }

  /** The statistics block computed by the store and by the dashboard. */
  datatype Statistics = Statistics(total: nat, completed: nat, inProgress: nat, notStarted: nat, progress: nat)

  function Stats(techs: seq<Tech>): (r: Statistics)
    ensures r.total == |techs|
    ensures r.completed == CountStatus(techs, Completed)
    ensures r.inProgress == CountStatus(techs, InProgress)
    ensures r.notStarted == CountStatus(techs, NotStarted)
    ensures r.completed + r.inProgress + r.notStarted <= r.total
    ensures (forall i | 0 <= i < |techs| :: KnownStatus(techs[i].status)) ==>
              r.completed + r.inProgress + r.notStarted == r.total
    ensures r.total == 0 ==> r.progress == 0
    ensures r.progress <= 100
    ensures r.total > 0 ==> 2 * r.total * r.progress <= 200 * r.completed + r.total < 2 * r.total * r.progress + 2 * r.total
  {
    StatusCountsBounded(techs);
    var completed := CountStatus(techs, Completed);
    Statistics(|techs|, completed, CountStatus(techs, InProgress),
               CountStatus(techs, NotStarted), Percent(completed, |techs|))
  }

  // ---------------------------------------------------------------------
  // Strings: trim and includes
  // ---------------------------------------------------------------------

  /**
   * The characters `String.prototype.trim` removes: ECMAScript's WhiteSpace
   * (tab, vertical tab, form feed, U+FEFF and every space separator of
   * Unicode category Zs) and its LineTerminator (LF, CR, U+2028, U+2029).
   */
  predicate IsSpace(c: char) {
    c == '\t' || c == '\n' || c == '\U{B}' || c == '\U{C}' || c == '\r' || c == ' '
    || c == '\U{A0}' || c == '\U{1680}' || '\U{2000}' <= c <= '\U{200A}'
    || c == '\U{2028}' || c == '\U{2029}' || c == '\U{202F}' || c == '\U{205F}'
    || c == '\U{3000}' || c == '\U{FEFF}'
  }

  /** `s.trimStart()`. */
  function TrimStart(s: string): string
    decreases |s|
  {
    if s != [] && IsSpace(s[0]) then TrimStart(s[1..]) else s
  }

  /** `s.trimEnd()`. */
  function TrimEnd(s: string): string
    decreases |s|
  {
    if s != [] && IsSpace(s[|s| - 1]) then TrimEnd(s[..|s| - 1]) else s
  }

  /** Trimming the start drops a run of leading whitespace and stops at the first other character. */
  lemma {:induction false} TrimStartShape(s: string)
    ensures var r := TrimStart(s);
            |r| <= |s| && r == s[|s| - |r|..]
            && (r != [] ==> !IsSpace(r[0]))
            && forall i | 0 <= i < |s| - |r| :: IsSpace(s[i])
    decreases |s|
  {
    if s != [] && IsSpace(s[0]) {
      TrimStartShape(s[1..]);
      assert s[1..][|s| - 1 - |TrimStart(s)|..] == s[|s| - |TrimStart(s)|..];
    }
  }

  /** Trimming the end drops a run of trailing whitespace and stops at the last other character. */
  lemma {:induction false} TrimEndShape(s: string)
    ensures var r := TrimEnd(s);
            |r| <= |s| && r == s[..|r|]
            && (r != [] ==> !IsSpace(r[|r| - 1]))
            && forall i | |r| <= i < |s| :: IsSpace(s[i])
    decreases |s|
  {
    if s != [] && IsSpace(s[|s| - 1]) {
      TrimEndShape(s[..|s| - 1]);
      assert s[..|s| - 1][..|TrimEnd(s)|] == s[..|TrimEnd(s)|];
    }
  }

  /** `s.trim()`. */
  function Trim(s: string): string {
    TrimEnd(TrimStart(s))
  }

  lemma {:induction false} AllSpaceTrimStart(s: string)
    requires forall i | 0 <= i < |s| :: IsSpace(s[i])
    ensures TrimStart(s) == ""
    decreases |s|
  {
    if s != [] {
      AllSpaceTrimStart(s[1..]);
    }
  }

  /** `!s.trim()`: the string is empty or whitespace only. */
  lemma TrimEmpty(s: string)
    ensures Trim(s) == "" <==> forall i | 0 <= i < |s| :: IsSpace(s[i])
  {
    if forall i | 0 <= i < |s| :: IsSpace(s[i]) {
      AllSpaceTrimStart(s);
    } else {
      TrimStartShape(s);
      TrimEndShape(TrimStart(s));
    }
  }

  /** `s.startsWith(p)`. */
  predicate StartsWith(s: string, p: string) {
    |p| <= |s| && s[..|p|] == p
  }

  /** `s.includes(sub)`. */
  predicate Includes(s: string, sub: string)
    decreases |s|
  {
    StartsWith(s, sub) || (s != [] && Includes(s[1..], sub))
  }

  predicate OccursAt(s: string, sub: string, k: int) {
    0 <= k <= |s| - |sub| && s[k..k + |sub|] == sub
  }

  /** `includes` holds exactly when `sub` occurs at some position of `s`. */
  lemma {:induction false} IncludesAt(s: string, sub: string)
    ensures Includes(s, sub) <==> exists k :: OccursAt(s, sub, k)
    decreases |s|
  {
    if s == [] {
      if sub == [] {
        assert OccursAt(s, sub, 0);
      }
    } else {
      IncludesAt(s[1..], sub);
      if StartsWith(s, sub) {
        assert OccursAt(s, sub, 0);
      } else if Includes(s[1..], sub) {
        var k :| OccursAt(s[1..], sub, k);
        assert s[1..][k..k + |sub|] == s[k + 1..k + 1 + |sub|];
        assert OccursAt(s, sub, k + 1);
      }
      if exists k :: OccursAt(s, sub, k) {
        var k :| OccursAt(s, sub, k);
        if k > 0 {
          assert s[1..][k - 1..k - 1 + |sub|] == s[k..k + |sub|];
          assert OccursAt(s[1..], sub, k - 1);
        }
      }
    }
  }

  /** `s.endsWith(suffix)`. */
  predicate EndsWith(s: string, suffix: string) {
    |suffix| <= |s| && s[|s| - |suffix|..] == suffix
  }
}
