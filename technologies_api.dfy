/**
 * The hook that keeps its own copy of the collection and mirrors every change
 * to the persisted key (src/hooks/useTechnologiesApi.js).  The hook's state
 * (`technologies`, `loading`, `error`) is a class; the key is the shared
 * `LocalStore`.
 */
module TechnologiesApi {
  import opened Wrappers
  import opened Technologies
  import opened TechnologiesStorage

  const LoadError: string := "Не удалось загрузить технологии"

  /** The three mock records seeded when nothing is saved (ids 1, 2 and 3). */
  const MockTechnologies: seq<Tech> := [
    Blank.(id := NumId(1), title := "React",
           description := "Библиотека для создания пользовательских интерфейсов",
           category := Some("frontend"), difficulty := "beginner",
           resources := ["https://react.dev", "https://ru.reactjs.org"]),
    Blank.(id := NumId(2), title := "Node.js",
           description := "Среда выполнения JavaScript на сервере",
           category := Some("backend"), difficulty := "intermediate",
           resources := ["https://nodejs.org", "https://nodejs.org/ru/docs/"]),
    Blank.(id := NumId(3), title := "TypeScript",
           description := "Типизированное надмножество JavaScript",
           category := Some("language"), difficulty := "intermediate",
           resources := ["https://www.typescriptlang.org"])
  ]

  /** The seed holds three records numbered 1 to 3, none with a status. */
  lemma MockShape()
    ensures |MockTechnologies| == 3
    ensures forall i | 0 <= i < 3 :: MockTechnologies[i].id == NumId(i + 1) && MockTechnologies[i].status == ""
  {
  }

  /**
   * The record `addTechnology(techData)` builds at clock reading `now`:
   * `{ id: now, ...techData, createdAt: now }`.  An id the caller supplies
   * wins over the clock; every other field is the caller's as given.
   */
  function NewRecord(techData: Tech, now: int): (r: Tech)
    ensures techData.id == NoId ==> r.id == NumId(now)
    ensures techData.id != NoId ==> r.id == techData.id
    ensures r.createdAt == Some(now)
    ensures r.(id := techData.id, createdAt := techData.createdAt) == techData
  {
    techData.(id := if techData.id == NoId then NumId(now) else techData.id, createdAt := Some(now))
  }

  class TechnologiesApi {
    var technologies: seq<Tech>
    var loading: bool
    var error: Option<string>
    const storage: LocalStore

    /** The hook's initial state: no records, loading, no error. */
    constructor (storage: LocalStore)
      ensures this.storage == storage
      ensures technologies == [] && loading && error == None
    {
      this.storage := storage;
      technologies := [];
      loading := true;
      error := None;
    }

    /**
     * `fetchTechnologies()`: a saved collection is used as it is; an absent
     * key seeds the mock records and persists them; content that does not
     * parse sets the error and keeps the previous records.  Loading ends in
     * every case.
     */
    method Fetch()
      modifies this, storage
      ensures !loading
      ensures old(storage.slot) == None ==>
                technologies == MockTechnologies && storage.slot == Some(Parsed(MockTechnologies)) && error == None
      ensures forall saved :: old(storage.slot) == Some(Parsed(saved)) ==>
                technologies == saved && storage.slot == old(storage.slot) && error == None
      ensures old(storage.slot) == Some(Unparseable) ==>
                technologies == old(technologies) && storage.slot == old(storage.slot) && error == Some(LoadError)
    {
      loading := true;
      error := None;
      match storage.slot {
        case Some(Parsed(saved)) =>
          technologies := saved;
        case Some(Unparseable) =>
          error := Some(LoadError);
        case None =>
          technologies := MockTechnologies;
          storage.Save(MockTechnologies);
      }
      loading := false;
    }

    /**
     * `addTechnology(techData)` at clock reading `now`: the new record is
     * `{ id: now, ...techData, createdAt: now }`, so an id the caller supplies
     * wins and the status is taken as given.  It is appended to the hook's
     * records and the result is persisted.
     */
    method Add(techData: Tech, now: int) returns (newTech: Tech)
      modifies this, storage
      ensures newTech == NewRecord(techData, now)
      ensures technologies == old(technologies) + [newTech]
      ensures storage.slot == Some(Parsed(technologies))
      ensures loading == old(loading) && error == old(error)
    {
      newTech := NewRecord(techData, now);
      technologies := technologies + [newTech];
      storage.Save(technologies);
    }

    /** `deleteTechnology(id)`: drops every record whose id is strictly equal, and persists. */
    method Delete(id: Id)
      modifies this, storage
      ensures technologies == Filter(old(technologies), IdIsNot(id))
      ensures storage.slot == Some(Parsed(technologies))
      ensures loading == old(loading) && error == old(error)
    {
      technologies := Filter(technologies, IdIsNot(id));
      storage.Save(technologies);
    }

    /** `updateTechnology(id, updates)`: merges into every record whose id is strictly equal, and persists. */
    method Update(id: Id, updates: Patch)
      modifies this, storage
      ensures technologies == MapWhere(old(technologies), IdIs(id), MergeWith(updates))
      ensures storage.slot == Some(Parsed(technologies))
      ensures loading == old(loading) && error == old(error)
    {
      technologies := MapWhere(technologies, IdIs(id), MergeWith(updates));
      storage.Save(technologies);
    }
  }

  /** Deleting an id no record carries changes nothing. */
  lemma DeleteUnknown(techs: seq<Tech>, id: Id)
    requires forall k | 0 <= k < |techs| :: techs[k].id != id
    ensures Filter(techs, IdIsNot(id)) == techs
  {
    FilterAllOrNothing(techs, IdIsNot(id));
  }

  /** Deletion removes every record with the id and keeps every other one, in order. */
  lemma DeleteKeepsOthers(before: seq<Tech>, after: seq<Tech>, id: Id)
    requires after == Filter(before, IdIsNot(id))
    ensures forall k | 0 <= k < |after| :: after[k].id != id
    ensures forall k | 0 <= k < |before| :: before[k].id != id ==> before[k] in after
    ensures forall a, b :: Filter(a + b, IdIsNot(id)) == Filter(a, IdIsNot(id)) + Filter(b, IdIsNot(id))
  {
    forall a, b ensures Filter(a + b, IdIsNot(id)) == Filter(a, IdIsNot(id)) + Filter(b, IdIsNot(id)) {
      FilterConcat(a, b, IdIsNot(id));
    }
  }

  /**
   * An update keeps the length, merges into the matching records and leaves
   * every other record identical.
   */
  lemma UpdateShape(before: seq<Tech>, id: Id, updates: Patch)
    ensures var after := MapWhere(before, IdIs(id), MergeWith(updates));
            |after| == |before|
            && (forall k | 0 <= k < |before| :: before[k].id == id ==> after[k] == Merge(before[k], updates))
            && (forall k | 0 <= k < |before| :: before[k].id != id ==> after[k] == before[k])
  {
  }

  /** Records that none of `ids` deletes under strict equality. */
  function IdNotAmong(ids: seq<Id>): Tech -> bool {
    (t: Tech) => t.id !in ids
  }

  /** One more `deleteTechnology(id)` extends the list of ids deleted so far. */
  lemma DeleteStrictStep(s: seq<Tech>, ids: seq<Id>, id: Id)
    ensures Filter(Filter(s, IdNotAmong(ids)), IdIsNot(id)) == Filter(s, IdNotAmong(ids + [id]))
  {
    FilterFilter(s, IdNotAmong(ids), IdIsNot(id), IdNotAmong(ids + [id]));
  }

  /** Deleting every id of a snapshot from that snapshot leaves nothing. */
  lemma DeleteStrictSnapshot(s: seq<Tech>)
    ensures Filter(s, IdNotAmong(IdsOf(s))) == []
  {
    var ids := IdsOf(s);
    assert forall i | 0 <= i < |s| :: s[i].id == ids[i];
    FilterAllOrNothing(s, IdNotAmong(ids));
  }
}
