/**
 * The roadmap importer (src/RoadmapImporter.jsx): three built-in roadmaps
 * of four technologies each, imported one record at a time through the
 * hook's `addTechnology`, and a delete-all that walks a snapshot of the
 * hook's records.  The pause between calls is a clock reading per added
 * record; the confirmation dialog is the parameter `confirmed`.
 */
module RoadmapImporter {
  import opened Wrappers
  import opened Technologies
  import opened TechnologiesStorage
  import opened TechnologiesApi
  import opened Clocks

  datatype Roadmap = Roadmap(name: string, technologies: seq<Tech>)

  /** One roadmap entry: no id and no status, as listed. */
  function Entry(title: string, description: string, category: string, difficulty: string,
                 resources: seq<string>): Tech
  {
    Blank.(title := title, description := description, category := Some(category),
           difficulty := difficulty, resources := resources)
  }

  const Roadmaps: map<string, Roadmap> := map[
    "frontend" := Roadmap("Frontend дорожная карта", [
      Entry("HTML5", "Язык разметки для веб-страниц", "frontend", "beginner",
            ["https://developer.mozilla.org/en-US/docs/Web/HTML"]),
      Entry("CSS3", "Язык стилей для веб-страниц", "frontend", "beginner",
            ["https://developer.mozilla.org/en-US/docs/Web/CSS"]),
      Entry("JavaScript", "Язык программирования для веб-приложений", "frontend", "intermediate",
            ["https://developer.mozilla.org/en-US/docs/Web/JavaScript"]),
      Entry("Vue.js", "Прогрессивный фреймворк для веб-приложений", "frontend", "intermediate",
            ["https://vuejs.org", "https://vuejs.org/guide/"])]),
    "backend" := Roadmap("Backend дорожная карта", [
      Entry("Express.js", "Минималистичный веб-фреймворк для Node.js", "backend", "intermediate",
            ["https://expressjs.com"]),
      Entry("Python", "Язык программирования высокого уровня", "backend", "intermediate",
            ["https://www.python.org", "https://docs.python.org"]),
      Entry("PostgreSQL", "Мощная реляционная база данных", "database", "intermediate",
            ["https://www.postgresql.org"]),
      Entry("Docker", "Контейнеризация приложений", "devops", "intermediate",
            ["https://www.docker.com", "https://docs.docker.com"])]),
    "fullstack" := Roadmap("FullStack дорожная карта", [
      Entry("Git", "Система контроля версий", "tools", "beginner",
            ["https://git-scm.com", "https://git-scm.com/doc"]),
      Entry("REST API", "Архитектурный стиль для веб-сервисов", "backend", "intermediate",
            ["https://restfulapi.net"]),
      Entry("GraphQL", "Язык запросов для API", "backend", "advanced",
            ["https://graphql.org", "https://graphql.org/learn/"]),
      Entry("MongoDB", "NoSQL база данных", "database", "intermediate",
            ["https://www.mongodb.com", "https://docs.mongodb.com"])])
  ]

  /** Exactly the three keys, each with four entries that carry neither an id nor a status. */
  lemma RoadmapShape()
    ensures Roadmaps.Keys == {"frontend", "backend", "fullstack"}
    ensures forall key | key in Roadmaps :: |Roadmaps[key].technologies| == 4
    ensures forall key, i | key in Roadmaps && 0 <= i < |Roadmaps[key].technologies| ::
              Roadmaps[key].technologies[i].id == NoId && Roadmaps[key].technologies[i].status == ""
  {
  }

  /** Every roadmap has something to import. */
  lemma RoadmapNonEmpty(key: string)
    requires key in Roadmaps
    ensures Roadmaps[key].technologies != []
  {
    RoadmapShape();
  }

  /**
   * What a run of `addTechnology` calls appends, one per entry in listed
   * order, the first at clock reading `start` and each later one a tick on.
   */
  function Added(entries: seq<Tech>, start: int): (r: seq<Tech>)
    ensures |r| == |entries|
    decreases |entries|
  {
    if entries == [] then [] else [NewRecord(entries[0], start)] + Added(entries[1..], start + 1)
  }

  /** Record `i` is entry `i` added at clock reading `start + i`. */
  lemma {:induction false} AddedAt(entries: seq<Tech>, start: int)
    ensures forall i | 0 <= i < |entries| :: Added(entries, start)[i] == NewRecord(entries[i], start + i)
    decreases |entries|
  {
    if entries != [] {
      AddedAt(entries[1..], start + 1);
    }
  }

  /** Adding one more entry appends one more record. */
  lemma AddedPrefix(entries: seq<Tech>, i: nat, start: int)
    requires i < |entries|
    ensures Added(entries[..i + 1], start) == Added(entries[..i], start) + [NewRecord(entries[i], start + i)]
  {
    var longer, shorter := Added(entries[..i + 1], start), Added(entries[..i], start);
    AddedAt(entries[..i + 1], start);
    AddedAt(entries[..i], start);
    forall k | 0 <= k < i + 1
      ensures longer[k] == (shorter + [NewRecord(entries[i], start + i)])[k]
    {
      if k < i {
        assert entries[..i + 1][k] == entries[..i][k];
      }
    }
  }

  /**
   * An imported roadmap adds four records, titled as listed, with distinct
   * clock-valued ids in increasing order, and with no status: the hook does
   * not default it.
   */
  lemma ImportedShape(key: string, start: int)
    requires key in Roadmaps
    ensures var r := Added(Roadmaps[key].technologies, start);
            |r| == 4
            && (forall i | 0 <= i < 4 :: r[i].id == NumId(start + i) && r[i].createdAt == Some(start + i))
            && (forall i | 0 <= i < 4 :: r[i].title == Roadmaps[key].technologies[i].title && r[i].status == "")
            && (forall i, j | 0 <= i < j < 4 :: r[i].id != r[j].id)
  {
    RoadmapShape();
    AddedAt(Roadmaps[key].technologies, start);
  }

  /** The status line above the buttons. */
  datatype Message = NoMessage | ImportSucceeded(count: nat, roadmapName: string) | ImportFailed
                   | DeleteSucceeded(count: nat)

  class Importer {
    var importing: bool
    var message: Message
    const api: TechnologiesApi
    const clock: Clock

    constructor (api: TechnologiesApi, clock: Clock)
      ensures this.api == api && this.clock == clock
      ensures !importing && message == NoMessage
    {
      this.api := api;
      this.clock := clock;
      importing := false;
      message := NoMessage;
    }

    /**
     * `handleImportRoadmap(roadmapKey)`: each entry of the roadmap is added
     * in listed order and counted, the success message reports the count
     * and the roadmap's name, and `importing` ends false.  A key that names
     * no roadmap fails before anything is added.
     */
    method ImportRoadmap(key: string)
      modifies this, api, api.storage, clock
      ensures !importing
      ensures key !in Roadmaps ==>
                message == ImportFailed && api.technologies == old(api.technologies)
                && api.storage.slot == old(api.storage.slot) && clock.ticks == old(clock.ticks)
      ensures key in Roadmaps ==>
                message == ImportSucceeded(|Roadmaps[key].technologies|, Roadmaps[key].name)
                && api.technologies == old(api.technologies) + Added(Roadmaps[key].technologies, old(clock.ticks))
                && api.storage.slot == Some(Parsed(api.technologies))
                && clock.ticks == old(clock.ticks) + |Roadmaps[key].technologies|
      ensures api.loading == old(api.loading) && api.error == old(api.error)
    {
      importing := true;
      message := NoMessage;
      if key !in Roadmaps {
        message := ImportFailed;
        importing := false;
        return;
      }
      var roadmap := Roadmaps[key];
      RoadmapNonEmpty(key);
      var count := AddEach(roadmap.technologies);
      message := ImportSucceeded(count, roadmap.name);
      importing := false;
    }

    /**
     * The `for ... of` over a roadmap's entries: one `addTechnology` per
     * entry at successive clock readings, each one counted.
     */
    method AddEach(entries: seq<Tech>) returns (count: nat)
      modifies api, api.storage, clock
      ensures count == |entries|
      ensures api.technologies == old(api.technologies) + Added(entries, old(clock.ticks))
      ensures entries != [] ==> api.storage.slot == Some(Parsed(api.technologies))
      ensures entries == [] ==> api.storage.slot == old(api.storage.slot)
      ensures clock.ticks == old(clock.ticks) + |entries|
      ensures api.loading == old(api.loading) && api.error == old(api.error)
    {
      count := 0;
      var i := 0;
      while i < |entries|
        invariant 0 <= i <= |entries| && count == i
        invariant api.technologies == old(api.technologies) + Added(entries[..i], old(clock.ticks))
        invariant clock.ticks == old(clock.ticks) + i
        invariant i > 0 ==> api.storage.slot == Some(Parsed(api.technologies))
        invariant i == 0 ==> api.storage.slot == old(api.storage.slot)
        invariant api.loading == old(api.loading) && api.error == old(api.error)
      {
        AddedPrefix(entries, i, old(clock.ticks));
        var now := clock.Now();
        var added := api.Add(entries[i], now);
        count := count + 1;
        i := i + 1;
      }
      assert entries[..i] == entries;
    }

    /**
     * `handleDeleteAll` after the user's answer: every id of a snapshot of
     * the hook's records is deleted in turn and counted; the hook ends
     * empty and the message reports the snapshot's length.  Without
     * confirmation nothing changes.
     */
    method DeleteAll(confirmed: bool)
      modifies this, api, api.storage
      ensures !confirmed ==>
                importing == old(importing) && message == old(message)
                && api.technologies == old(api.technologies) && api.storage.slot == old(api.storage.slot)
      ensures confirmed ==>
                !importing && message == DeleteSucceeded(|old(api.technologies)|) && api.technologies == []
                && (old(api.technologies) != [] ==> api.storage.slot == Some(Parsed([])))
      ensures api.loading == old(api.loading) && api.error == old(api.error)
    {
      if confirmed {
        importing := true;
        var snapshot := api.technologies;
        FilterAllOrNothing(snapshot, IdNotAmong([]));
        ghost var deleted: seq<Id> := [];
        var count := 0;
        var i := 0;
        while i < |snapshot|
          invariant 0 <= i <= |snapshot| && count == i
          invariant deleted == IdsOf(snapshot[..i])
          invariant api.technologies == Filter(snapshot, IdNotAmong(deleted))
          invariant i > 0 ==> api.storage.slot == Some(Parsed(api.technologies))
          invariant api.loading == old(api.loading) && api.error == old(api.error)
        {
          var id := snapshot[i].id;
          DeleteStrictStep(snapshot, deleted, id);
          api.Delete(id);
          deleted := deleted + [id];
          IdsOfPrefix(snapshot, i);
          count := count + 1;
          i := i + 1;
        }
        assert snapshot[..i] == snapshot;
        DeleteStrictSnapshot(snapshot);
        message := DeleteSucceeded(count);
        importing := false;
      }
    }
  }
}
