/**
 * The import/export page (src/pages/DataImportExport.jsx).  It keeps a view
 * of the stored list and goes through the shared accessor for every change:
 * an import adds, one at a time, the valid entries whose id is not stored
 * yet; a status toggle steps through the three statuses; clearing deletes
 * every stored id in turn.
 */
module DataImportExport {
  import opened Wrappers
  import opened Technologies
  import opened ImportFile
  import opened TechnologiesStorage
  import opened Clocks

  /**
   * What the `catch` reports: text that does not parse, the TypeError from
   * reading `technologies` of a `null` document, a missing array, or no
   * valid entry.
   */
  datatype ImportError = ParseFailed | NullDocumentRead | MissingArray | NoValidTechnologies

  /** The status line under the buttons. */
  datatype Notice =
    | NoNotice
    | Loaded(count: nat)
    | Exported(count: nat)
    | Imported(count: nat)
    | ImportFailed(error: ImportError)
    | ReadFailed
    | Cleared

  /** `tech && tech.id && tech.title && tech.description`. */
  predicate Mergeable(e: Entry) {
    e.Record? && IdTruthy(e.tech.id) && e.tech.title != "" && e.tech.description != ""
  }

  /** The entries that pass the filter, as records, in file order. */
  function ValidTechnologies(entries: seq<Entry>): (r: seq<Tech>)
    ensures |r| <= |entries|
    ensures forall i | 0 <= i < |r| :: IdTruthy(r[i].id) && r[i].title != "" && r[i].description != ""
    ensures forall i | 0 <= i < |r| :: Record(r[i]) in entries
    ensures forall i | 0 <= i < |entries| :: Mergeable(entries[i]) ==> entries[i].tech in r
    ensures r == [] <==> forall i | 0 <= i < |entries| :: !Mergeable(entries[i])
    ensures |entries| == 1 ==> r == if Mergeable(entries[0]) then [entries[0].tech] else []
    decreases |entries|
  {
    if entries == [] then []
    else
      var rest := ValidTechnologies(entries[1..]);
      assert forall i | 0 <= i < |entries| - 1 :: entries[1..][i] == entries[i + 1];
      if Mergeable(entries[0]) then [entries[0].tech] + rest else rest
  }
  /** The filter keeps file order: it distributes over concatenation. */
  lemma {:induction false} ValidTechnologiesConcat(a: seq<Entry>, b: seq<Entry>)
    ensures ValidTechnologies(a + b) == ValidTechnologies(a) + ValidTechnologies(b)
    decreases |a|
  {
    if a == [] {
      assert a + b == b;
    } else {
      assert (a + b)[1..] == a[1..] + b;
      ValidTechnologiesConcat(a[1..], b);
    }
  }


  /**
   * The merge the import loop performs, one valid entry at a time: an entry
   * whose id strictly equals a stored record's id (checked against the list
   * as it is at that moment) is skipped; any other is stamped by the store
   * with the next clock reading and appended.  The result is the final list
   * and the next clock reading.
   */
  function MergeImport(stored: seq<Tech>, valid: seq<Tech>, now: int): (r: (seq<Tech>, int))
    ensures stored <= r.0
    ensures |r.0| - |stored| == r.1 - now <= |valid|
    ensures now <= r.1
    decreases |valid|
  {
    if valid == [] then (stored, now)
    else if Find(stored, IdIs(valid[0].id)).Some? then MergeImport(stored, valid[1..], now)
    else MergeImport(stored + [Stamp(valid[0], now)], valid[1..], now + 1)
  }

  /** The merge of the entries from `i` on is one step for entry `i`, then the merge of the rest. */
  lemma MergeImportStep(stored: seq<Tech>, valid: seq<Tech>, i: nat, now: int)
    requires i < |valid|
    ensures var next := MergeStep(stored, valid[i], now);
            MergeImport(stored, valid[i..], now) == MergeImport(next.0, valid[i + 1..], next.1)
  {
    assert valid[i..][1..] == valid[i + 1..];
  }

  /** One entry: skipped when its id is stored already, otherwise stamped and appended at the clock reading. */
  function MergeStep(stored: seq<Tech>, entry: Tech, now: int): (r: (seq<Tech>, int))
    ensures Find(stored, IdIs(entry.id)).Some? ==> r == (stored, now)
    ensures Find(stored, IdIs(entry.id)).None? ==> r == (stored + [Stamp(entry, now)], now + 1)
  {
    if Find(stored, IdIs(entry.id)).Some? then (stored, now) else (stored + [Stamp(entry, now)], now + 1)
  }

  /** A file whose every entry is already stored (by strict id) adds nothing. */
  lemma {:induction false} MergeImportKnown(stored: seq<Tech>, valid: seq<Tech>, now: int)
    requires forall i | 0 <= i < |valid| :: exists k | 0 <= k < |stored| :: stored[k].id == valid[i].id
    ensures MergeImport(stored, valid, now) == (stored, now)
    decreases |valid|
  {
    if valid != [] {
      var k :| 0 <= k < |stored| && stored[k].id == valid[0].id;
      assert IdIs(valid[0].id)(stored[k]);
      MergeImportKnown(stored, valid[1..], now);
    }
  }

  /**
   * Every record the import appends is a stamped valid entry, so it carries
   * a clock reading as its numeric id, never the id written in the file.
   */
  lemma {:induction false} MergeImportStamps(stored: seq<Tech>, valid: seq<Tech>, now: int)
    ensures var r := MergeImport(stored, valid, now);
            forall k | |stored| <= k < |r.0| :: r.0[k].id.NumId? && now <= r.0[k].id.n < r.1
    decreases |valid|
  {
    if valid != [] {
      if Find(stored, IdIs(valid[0].id)).Some? {
        assert MergeImport(stored, valid, now) == MergeImport(stored, valid[1..], now);
        MergeImportStamps(stored, valid[1..], now);
      } else {
        var grown := stored + [Stamp(valid[0], now)];
        assert MergeImport(stored, valid, now) == MergeImport(grown, valid[1..], now + 1);
        MergeImportStamps(grown, valid[1..], now + 1);
        assert grown <= MergeImport(stored, valid, now).0;
        assert MergeImport(stored, valid, now).0[|stored|] == grown[|stored|];
      }
    }
  }

  /**
   * `stats` of the export: the length and the completed and in-progress counts.
   */
  datatype ExportStats = ExportStats(total: nat, completed: nat, inProgress: nat)

  datatype ExportDoc = ExportDoc(version: string, exportedAt: int, technologies: seq<Tech>, stats: ExportStats)

  /** The object `handleExport` serialises, at clock reading `now`. */
  function ExportData(techs: seq<Tech>, now: int): (d: ExportDoc)
    ensures d.version == "1.0" && d.exportedAt == now && d.technologies == techs
    ensures d.stats.total == |techs|
    ensures d.stats.completed == CountStatus(techs, Completed)
    ensures d.stats.inProgress == CountStatus(techs, InProgress)
    ensures d.stats.completed + d.stats.inProgress <= d.stats.total
  {
    StatusCountsBounded(techs);
    ExportDoc("1.0", now, techs,
              ExportStats(|techs|, CountStatus(techs, Completed), CountStatus(techs, InProgress)))
  }

  class DataImportExport {
    var technologies: seq<Tech>
    var notice: Notice
    const store: LocalStore
    const clock: Clock

    /** Mounting loads the stored list and reports its size when it is not empty. */
    constructor (store: LocalStore, clock: Clock)
      ensures this.store == store && this.clock == clock
      ensures technologies == store.GetAll()
      ensures notice == if |technologies| > 0 then Loaded(|technologies|) else NoNotice
    {
      this.store := store;
      this.clock := clock;
      var loaded := store.GetAll();
      technologies := loaded;
      notice := if |loaded| > 0 then Loaded(|loaded|) else NoNotice;
    }

    /** `handleExport` at clock reading `now`: the document built from the view, and the notice. */
    method HandleExport(now: int) returns (d: ExportDoc)
      modifies this
      ensures d == ExportData(old(technologies), now)
      ensures technologies == old(technologies) && notice == Exported(|technologies|)
    {
      d := ExportData(technologies, now);
      notice := Exported(|technologies|);
    }

    /**
     * `handleImport` with what the reader delivered (`None`: no file chosen).
     * Text that does not parse, a `null` document, a document without an
     * array, or one without a single valid entry is refused, each with its
     * own error, and nothing is stored.  Otherwise the valid entries are merged
     * one by one, the view is reloaded from the store, and the notice counts
     * the valid entries, not the ones actually added.
     */
    method HandleImport(picked: Option<ReadResult>)
      modifies this, store, clock
      ensures picked.None? ==>
                technologies == old(technologies) && notice == old(notice)
                && store.slot == old(store.slot) && clock.ticks == old(clock.ticks)
      ensures picked == Some(ReadError) ==>
                notice == ReadFailed && technologies == old(technologies)
                && store.slot == old(store.slot) && clock.ticks == old(clock.ticks)
      ensures picked.Some? && picked.value.Read? && !picked.value.content.Items? ==>
                notice.ImportFailed? && technologies == old(technologies)
                && store.slot == old(store.slot) && clock.ticks == old(clock.ticks)
      ensures picked == Some(Read(FileContent.Unparseable)) ==> notice == ImportFailed(ParseFailed)
      ensures picked == Some(Read(NullDocument)) ==> notice == ImportFailed(NullDocumentRead)
      ensures picked == Some(Read(NoArray)) ==> notice == ImportFailed(MissingArray)
      ensures picked.Some? && picked.value.Read? && picked.value.content.Items? ==>
                var valid := ValidTechnologies(picked.value.content.entries);
                if valid == [] then
                  notice == ImportFailed(NoValidTechnologies) && technologies == old(technologies)
                  && store.slot == old(store.slot) && clock.ticks == old(clock.ticks)
                else
                  (store.GetAll(), clock.ticks) == MergeImport(old(store.GetAll()), valid, old(clock.ticks))
                  && technologies == store.GetAll()
                  && notice == Imported(|valid|)
                  && (clock.ticks == old(clock.ticks) ==> store.slot == old(store.slot))
                  && (clock.ticks != old(clock.ticks) ==> store.slot == Some(Parsed(store.GetAll())))
    {
      if picked.None? {
        return;
      }
      match picked.value {
        case ReadError =>
          notice := ReadFailed;
        case Read(content) =>
          match content {
            case Unparseable =>
              notice := ImportFailed(ParseFailed);
            case NullDocument =>
              notice := ImportFailed(NullDocumentRead);
            case NoArray =>
              notice := ImportFailed(MissingArray);
            case Items(entries) =>
              var valid := ValidTechnologies(entries);
              if valid == [] {
                notice := ImportFailed(NoValidTechnologies);
              } else {
                MergeLoop(valid);
                technologies := store.GetAll();
                notice := Imported(|valid|);
              }
          }
      }
    }

    /** The `forEach` over the valid entries, proved against `MergeImport`. */
    method MergeLoop(valid: seq<Tech>)
      modifies store, clock
      ensures (store.GetAll(), clock.ticks) == MergeImport(old(store.GetAll()), valid, old(clock.ticks))
      ensures clock.ticks == old(clock.ticks) ==> store.slot == old(store.slot)
      ensures clock.ticks != old(clock.ticks) ==> store.slot == Some(Parsed(store.GetAll()))
    {
      var i := 0;
      while i < |valid|
        invariant 0 <= i <= |valid|
        invariant MergeImport(store.GetAll(), valid[i..], clock.ticks) == MergeImport(old(store.GetAll()), valid, old(clock.ticks))
        invariant old(clock.ticks) <= clock.ticks
        invariant clock.ticks == old(clock.ticks) ==> store.slot == old(store.slot)
        invariant clock.ticks != old(clock.ticks) ==> store.slot == Some(Parsed(store.GetAll()))
      {
        MergeImportStep(store.GetAll(), valid, i, clock.ticks);
        MergeOne(valid[i]);
        i := i + 1;
      }
    }

    /** One pass of the `forEach`: an entry whose id is stored already is skipped, any other is added. */
    method MergeOne(entry: Tech)
      modifies store, clock
      ensures (store.GetAll(), clock.ticks) == MergeStep(old(store.GetAll()), entry, old(clock.ticks))
      ensures clock.ticks == old(clock.ticks) ==> store.slot == old(store.slot)
      ensures clock.ticks != old(clock.ticks) ==> store.slot == Some(Parsed(store.GetAll()))
    {
      var existing := Find(store.GetAll(), IdIs(entry.id));
      if existing.None? {
        var now := clock.Now();
        var added := store.Add(entry, now);
      }
    }

    /**
     * `toggleStatus(techId)`: the record is looked up in the view by strict
     * id; if there is one, its next status in the cycle is written through
     * the store (which matches numerically) and the view is reloaded.
     */
    method ToggleStatus(techId: Id)
      modifies this, store
      ensures notice == old(notice)
      ensures Find(old(technologies), IdIs(techId)).None? ==>
                technologies == old(technologies) && store.slot == old(store.slot)
      ensures Find(old(technologies), IdIs(techId)).Some? ==>
                var next := CycleStatus(Find(old(technologies), IdIs(techId)).value.status);
                var before := old(store.GetAll());
                technologies == store.GetAll()
                && match FindFirst(before, NumberIs(techId))
                   case None => store.slot == old(store.slot)
                   case Some(i) => store.slot == Some(Parsed(before[i := before[i].(status := next)]))
    {
      var tech := Find(technologies, IdIs(techId));
      if tech.Some? {
        var next := CycleStatus(tech.value.status);
        forall t: Tech ensures Merge(t, StatusPatch(next)) == t.(status := next) {
          MergeStatusOnly(t, next);
        }
        var updated := store.Update(techId, StatusPatch(next));
        technologies := store.GetAll();
      }
    }

    /**
     * `clearAllData` after the user's answer: every id of a snapshot of the
     * store is deleted in turn, and the view is emptied.  The store keeps
     * only the records whose id has no numeric value (none, when every id is
     * a number, as every id the store assigns is).
     */
    method ClearAllData(confirmed: bool)
      modifies this, store
      ensures !confirmed ==>
                technologies == old(technologies) && notice == old(notice) && store.slot == old(store.slot)
      ensures confirmed ==>
                technologies == [] && notice == Cleared
                && store.GetAll() == Filter(old(store.GetAll()), HasNoNumber())
                && (old(store.GetAll()) == [] ==> store.slot == old(store.slot))
    {
      if confirmed {
        var snapshot := store.GetAll();
        DeleteEach(store, snapshot);
        technologies := [];
        notice := Cleared;
      }
    }
  }
}
