/**
 * The shared accessor over the persisted key `technologies`: read with a
 * fallback, find, add, update, delete, save and statistics
 * (src/utils/technologiesStorage.js).
 *
 * The key-value store and JSON are an abstract slot: the key is absent, or it
 * holds text that parses to a collection, or text that does not parse.
 */
module TechnologiesStorage {
  import opened Wrappers
  import opened Technologies

  /** What the key `technologies` holds. */
  datatype Content = Parsed(techs: seq<Tech>) | Unparseable

  /**
   * `getAllTechnologies` on a slot value: an absent key and content that does
   * not parse both read as the empty collection (the parse error is caught).
   */
  function ReadSlot(slot: Option<Content>): (r: seq<Tech>)
    ensures slot == None || slot == Some(Unparseable) ==> r == []
    ensures forall techs :: slot == Some(Parsed(techs)) ==> r == techs
  {
    match slot
    case Some(Parsed(techs)) => techs
    case _ => []
  }

  /**
   * The record `addTechnology(tech)` stores at clock reading `now`: the id is
   * `now` whatever id `tech` carried, the creation time is `now`, a non-empty
   * status is kept and an empty one becomes `not-started`; every other field
   * is `tech`'s.
   */
  function Stamp(tech: Tech, now: int): (r: Tech)
    ensures r.id == NumId(now) && r.createdAt == Some(now)
    ensures r.status == if tech.status != "" then tech.status else NotStarted
    ensures r.(id := tech.id, createdAt := tech.createdAt, status := tech.status) == tech
  {
    tech.(id := NumId(now), createdAt := Some(now),
          status := if tech.status != "" then tech.status else NotStarted)
  }

  /** The browser's storage entry for the key `technologies`. */
  class LocalStore {
    var slot: Option<Content>

    constructor (initial: Option<Content>)
      ensures slot == initial
    {
      slot := initial;
    }

    /** `getAllTechnologies()`. */
    function GetAll(): seq<Tech>
      reads this
    {
      ReadSlot(slot)
    }

    /** `getTechnologyById(id)`: the first record whose id is numerically equal, if any. */
    function GetById(id: Id): (r: Option<Tech>)
      reads this
      ensures r.None? <==> forall k | 0 <= k < |GetAll()| :: !NumericEq(GetAll()[k].id, id)
      ensures r.Some? ==> exists k | 0 <= k < |GetAll()| ::
                GetAll()[k] == r.value && NumericEq(r.value.id, id)
                && forall j | 0 <= j < k :: !NumericEq(GetAll()[j].id, id)
    {
      Find(GetAll(), NumberIs(id))
    }

    /** `saveTechnologies(techs)`: the whole collection replaces the key's value. */
    method Save(techs: seq<Tech>)
      modifies this
      ensures slot == Some(Parsed(techs))
      ensures GetAll() == techs
    {
      slot := Some(Parsed(techs));
    }

    /**
     * `addTechnology(tech)` at clock reading `now`: the stamped record is
     * appended to what the key read as, the result is saved and the record
     * returned.
     */
    method Add(tech: Tech, now: int) returns (r: Tech)
      modifies this
      ensures r == Stamp(tech, now)
      ensures slot == Some(Parsed(old(GetAll()) + [r]))
    {
      var techs := GetAll();
      r := Stamp(tech, now);
      techs := techs + [r];
      Save(techs);
    }

    /**
     * `updateTechnology(id, updates)`: the first record with a numerically
     * equal id becomes `{...record, ...updates}`, the collection is saved and
     * the merged record returned; without a match nothing is written and the
     * result is `null`.
     */
    method Update(id: Id, updates: Patch) returns (r: Option<Tech>)
      modifies this
      ensures var before := old(GetAll());
              match FindFirst(before, NumberIs(id))
              case None => r == None && slot == old(slot)
              case Some(i) => r == Some(Merge(before[i], updates))
                              && slot == Some(Parsed(before[i := Merge(before[i], updates)]))
    {
      var techs := GetAll();
      var index := FindFirst(techs, NumberIs(id));
      if index.Some? {
        var i := index.value;
        techs := techs[i := Merge(techs[i], updates)];
        Save(techs);
        r := Some(techs[i]);
      } else {
        r := None;
      }
    }

    /**
     * `deleteTechnology(id)`: every record with a numerically equal id is
     * dropped, the rest is saved in order, and the result says whether
     * anything was dropped.
     */
    method Delete(id: Id) returns (removed: bool)
      modifies this
      ensures slot == Some(Parsed(Filter(old(GetAll()), NumberIsNot(id))))
      ensures removed <==> exists k | 0 <= k < |old(GetAll())| :: NumericEq(old(GetAll())[k].id, id)
    {
      var techs := GetAll();
      var filtered := Filter(techs, NumberIsNot(id));
      FilterShrinks(techs, NumberIsNot(id));
      Save(filtered);
      removed := |filtered| < |techs|;
    }

    /** `getStatistics()`. */
    function GetStatistics(): (r: Statistics)
      reads this
      ensures r.total == |GetAll()|
      ensures r.progress <= 100
    {
      Stats(GetAll())
    }
  }

  /** After an add, looking its id up finds the added record, unless an older record has that number. */
  lemma AddThenGetById(before: seq<Tech>, r: Tech, now: int)
    requires r.id == NumId(now)
    requires forall j | 0 <= j < |before| :: !NumericEq(before[j].id, NumId(now))
    ensures Find(before + [r], NumberIs(NumId(now))) == Some(r)
  {
    var after := before + [r];
    assert NumberIs(NumId(now))(after[|before|]);
  }

  /**
   * Deleting the same id again finds nothing to drop and leaves the
   * collection as the first deletion left it.
   */
  lemma DeleteTwice(techs: seq<Tech>, id: Id)
    ensures var once := Filter(techs, NumberIsNot(id));
            Filter(once, NumberIsNot(id)) == once
            && !exists k | 0 <= k < |once| :: NumericEq(once[k].id, id)
  {
    FilterIdempotent(techs, NumberIsNot(id));
  }

  /** The statistics of a single record that is in progress. */
  lemma OneInProgress(t: Tech)
    requires t.status == InProgress
    ensures Stats([t]) == Statistics(1, 0, 1, 0, 0)
  {
    assert [t][1..] == [];
    assert Filter([t], HasStatus(InProgress)) == [t];
    assert Filter([t], HasStatus(Completed)) == [];
    assert Filter([t], HasStatus(NotStarted)) == [];
  }

  /**
   * An example run: an empty store, one added record, its status set to
   * in progress; the statistics are then one record, in progress, 0 percent.
   */
  method AddUpdateScenario() returns (stats: Statistics)
    ensures stats == Statistics(1, 0, 1, 0, 0)
  {
    var store := new LocalStore(None);
    var added := store.Add(Blank.(title := "React", description := "UI lib"), 1000);
    assert added.status == NotStarted;
    assert store.GetAll() == [added];
    assert FindFirst([added], NumberIs(added.id)) == Some(0);
    var updated := store.Update(added.id, StatusPatch(InProgress));
    assert store.GetAll() == [added.(status := InProgress)];
    OneInProgress(added.(status := InProgress));
    stats := store.GetStatistics();
  }

  // ---------------------------------------------------------------------
  // Deleting every record of a snapshot, one id at a time
  // ---------------------------------------------------------------------

  /** The ids of a list, in order. */
  function IdsOf(techs: seq<Tech>): (r: seq<Id>)
    ensures |r| == |techs|
    ensures forall i | 0 <= i < |techs| :: r[i] == techs[i].id
    decreases |techs|
  {
    if techs == [] then [] else [techs[0].id] + IdsOf(techs[1..])
  }

  /** The ids of a concatenation are the concatenated ids. */
  lemma {:induction false} IdsOfConcat(a: seq<Tech>, b: seq<Tech>)
    ensures IdsOf(a + b) == IdsOf(a) + IdsOf(b)
    decreases |a|
  {
    if a == [] {
      assert a + b == b;
    } else {
      assert (a + b)[1..] == a[1..] + b;
      IdsOfConcat(a[1..], b);
    }
  }

  /** The ids of one more element of a prefix. */
  lemma IdsOfPrefix(s: seq<Tech>, i: nat)
    requires i < |s|
    ensures IdsOf(s[..i + 1]) == IdsOf(s[..i]) + [s[i].id]
  {
    assert s[..i + 1] == s[..i] + [s[i]];
    IdsOfConcat(s[..i], [s[i]]);
  }

  /** Records that none of `ids` deletes: no id numerically equal to any of them. */
  function Survives(ids: seq<Id>): Tech -> bool {
    (t: Tech) => forall j | 0 <= j < |ids| :: !NumericEq(t.id, ids[j])
  }

  function HasNoNumber(): Tech -> bool {
    (t: Tech) => NumberOf(t.id).None?
  }

  /** One more `deleteTechnology(id)` extends the list of ids deleted so far. */
  lemma DeleteStep(s: seq<Tech>, ids: seq<Id>, id: Id)
    ensures Filter(Filter(s, Survives(ids)), NumberIsNot(id)) == Filter(s, Survives(ids + [id]))
  {
    forall t: Tech
      ensures Survives(ids + [id])(t) == (Survives(ids)(t) && NumberIsNot(id)(t))
    {
      var ext := ids + [id];
      assert forall j | 0 <= j < |ids| :: ext[j] == ids[j];
      assert ext[|ids|] == id;
    }
    FilterFilter(s, Survives(ids), NumberIsNot(id), Survives(ids + [id]));
  }

  /**
   * Deleting every id of a snapshot from that snapshot leaves exactly the
   * records whose id has no numeric value (`Number(id)` is NaN, which equals
   * nothing); so the result is empty when every id is numeric.
   */
  lemma DeleteSnapshot(s: seq<Tech>)
    ensures Filter(s, Survives(IdsOf(s))) == Filter(s, HasNoNumber())
    ensures (forall i | 0 <= i < |s| :: NumberOf(s[i].id).Some?) ==> Filter(s, Survives(IdsOf(s))) == []
  {
    var ids := IdsOf(s);
    forall i | 0 <= i < |s|
      ensures Survives(ids)(s[i]) == HasNoNumber()(s[i])
    {
      if NumberOf(s[i].id).Some? {
        assert NumericEq(s[i].id, ids[i]);
      }
    }
    FilterCongruent(s, Survives(ids), HasNoNumber());
    FilterAllOrNothing(s, HasNoNumber());
  }

  /**
   * `techs.forEach(tech => deleteTechnology(tech.id))` over a snapshot read
   * from the store: one delete per snapshot entry, in order.  What remains
   * is the snapshot's records whose id has no numeric value.
   */
  method DeleteEach(store: LocalStore, snapshot: seq<Tech>)
    requires store.GetAll() == snapshot
    modifies store
    ensures store.GetAll() == Filter(snapshot, HasNoNumber())
    ensures snapshot == [] ==> store.slot == old(store.slot)
  {
    FilterAllOrNothing(snapshot, Survives([]));
    assert IdsOf(snapshot[..0]) == [];
    var i := 0;
    while i < |snapshot|
      invariant 0 <= i <= |snapshot|
      invariant store.GetAll() == Filter(snapshot, Survives(IdsOf(snapshot[..i])))
      invariant i == 0 ==> store.slot == old(store.slot)
    {
      var id := snapshot[i].id;
      DeleteStep(snapshot, IdsOf(snapshot[..i]), id);
      IdsOfPrefix(snapshot, i);
      var removed := store.Delete(id);
      i := i + 1;
    }
    assert snapshot[..i] == snapshot;
    DeleteSnapshot(snapshot);
  }
}
