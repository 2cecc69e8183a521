/**
 * The settings page (src/pages/Settings.js): a reset that deletes every
 * stored id through the shared accessor, and an export of the stored list.
 * The confirmation dialog is the parameter `confirmed`; the download and
 * the alert are the returned `Export`.
 */
module Settings {
  import opened Technologies
  import opened TechnologiesStorage

  /**
   * `handleReset` after the user's answer: a confirmed reset reads the
   * stored list once and deletes each of its ids, then goes home.  Only
   * records whose id has no numeric value could remain; every id the store
   * assigns is a number.
   */
  method HandleReset(confirmed: bool, store: LocalStore) returns (navigatedHome: bool)
    modifies store
    ensures navigatedHome == confirmed
    ensures !confirmed ==> store.slot == old(store.slot)
    ensures confirmed ==> store.GetAll() == Filter(old(store.GetAll()), HasNoNumber())
    ensures confirmed && (forall i | 0 <= i < |old(store.GetAll())| :: NumberOf(old(store.GetAll())[i].id).Some?) ==>
              store.GetAll() == []
  {
    navigatedHome := false;
    if confirmed {
      var techs := store.GetAll();
      DeleteEach(store, techs);
      FilterAllOrNothing(techs, HasNoNumber());
      navigatedHome := true;
    }
  }

  /** The file `technologies.json` holding the list, or the "nothing to export" alert. */
  datatype Export = NothingToExport | Download(fileName: string, technologies: seq<Tech>)

  /** `exportData`: an empty store offers no download; otherwise the list as read is the file's content. */
  method ExportData(store: LocalStore) returns (e: Export)
    ensures e.NothingToExport? <==> store.GetAll() == []
    ensures e.Download? ==> e.fileName == "technologies.json" && e.technologies == store.GetAll()
  {
    var techs := store.GetAll();
    if |techs| > 0 {
      e := Download("technologies.json", techs);
    } else {
      e := NothingToExport;
    }
  }
}
