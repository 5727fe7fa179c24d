/**
 * The new-project form (src/components/NewProjectForm.tsx): dropping a
 * sheet-music file, the checks before a project is created in the store, and
 * when the Create button is disabled.
 *
 * `URL.createObjectURL` is not modelled: the drop handler receives the URL it
 * would return. `parseInt` is not modelled either: creation receives the
 * parsed tempo, `None` standing for NaN.
 */
module NewProjectForm {

  import opened Types
  import opened Seqs
  import opened Text
  import opened Store

  /** The title derived from a file name: the text before the first '.', each '_' read as a space. */
  function TitleFromFileName(fileName: string): (title: string)
    ensures |title| <= |fileName|
    ensures '.' !in title && '_' !in title
    ensures forall i :: 0 <= i < |title| ==> title[i] == (if fileName[i] == '_' then ' ' else fileName[i])
    ensures |title| < |fileName| ==> fileName[|title|] == '.'
  {
    ReplaceAll(BeforeFirst(fileName, '.'), '_', ' ')
  }

  /** A name without '.' or '_' is its own title. */
  lemma PlainNameIsTitle(fileName: string)
    requires '.' !in fileName && '_' !in fileName
    ensures TitleFromFileName(fileName) == fileName
  {
  }

  /** `parseInt(tempo) || 120`: the parsed tempo unless it is 0 or NaN. */
  function CustomTempo(parsed: Option<int>): (tempo: int)
    ensures tempo != 0
    ensures parsed.Some? && parsed.value != 0 ==> tempo == parsed.value
    ensures parsed.None? || parsed.value == 0 ==> tempo == 120
  {
    if parsed.Some? && parsed.value != 0 then parsed.value else 120
  }

  function SongWithId(id: int): PracticeSong -> bool {
    (s: PracticeSong) => s.id == id
  }

  class Form {
    var selectedSongId: Option<int>
    var customTitle: string
    var uploadedFileName: Option<string>
    var uploadedUrl: Option<string>
    var isCustom: bool
    const studentId: int
    const instrument: string
    const store: Store

    constructor (store0: Store, studentId0: int, instrument0: string)
      ensures store == store0 && studentId == studentId0 && instrument == instrument0
      ensures selectedSongId.None? && customTitle == "" && uploadedFileName.None? && uploadedUrl.None? && !isCustom
    {
      store := store0;
      studentId := studentId0;
      instrument := instrument0;
      selectedSongId := None;
      customTitle := "";
      uploadedFileName := None;
      uploadedUrl := None;
      isCustom := false;
    }

    /** The songs the form offers: the store's songs for the form's instrument. */
    function AvailableSongs(): seq<PracticeSong> {
      GetPracticeSongsByInstrument(store.songs, instrument)
    }

    /** JavaScript truthiness of the selected song id: set and not 0. */
    predicate SongChosen()
      reads this
    {
      selectedSongId.Some? && selectedSongId.value != 0
    }

    /** JavaScript truthiness of the upload URL: set and not empty. */
    predicate HasUpload()
      reads this
    {
      uploadedUrl.Some? && uploadedUrl.value != ""
    }

    /** Whether `handleCreateProject` gets past its checks and creates a project. */
    predicate CanCreate()
      reads this
    {
      if isCustom then customTitle != "" && HasUpload()
      else SongChosen() && FindFirst(AvailableSongs(), SongWithId(selectedSongId.value)).Some?
    }

    /** The Create button is disabled with no song chosen unless a custom upload is in place. */
    predicate CreateDisabled()
      reads this
      ensures CanCreate() ==> !CreateDisabled()
      ensures SongChosen() ==> !CreateDisabled()
      ensures !isCustom ==> (CreateDisabled() <==> !SongChosen())
    {
      !SongChosen() && (!isCustom || !HasUpload())
    }

    /** The button never blocks a creation that would succeed. */
    lemma EnabledWhenCreatable()
      requires CanCreate()
      ensures !CreateDisabled()
    {
    }

    /**
     * The converse fails: in custom mode a song chosen earlier in library
     * mode keeps the button enabled though creation has no title to use.
     */
    lemma StaleSongEnablesButton()
      requires isCustom && SongChosen() && customTitle == ""
      ensures !CreateDisabled() && !CanCreate()
    {
    }

    /**
     * `onDrop`: an empty drop changes nothing; otherwise the first file and
     * its URL are kept, the form switches to custom mode, and the title is
     * derived from the file name when none has been typed.
     */
    method OnDrop(fileNames: seq<string>, objectUrl: string)
      modifies this`uploadedFileName, this`uploadedUrl, this`isCustom, this`customTitle
      ensures fileNames == [] ==>
        && uploadedFileName == old(uploadedFileName) && uploadedUrl == old(uploadedUrl)
        && isCustom == old(isCustom) && customTitle == old(customTitle)
      ensures fileNames != [] ==>
        && uploadedFileName == Some(fileNames[0]) && uploadedUrl == Some(objectUrl) && isCustom
        && customTitle == (if old(customTitle) == "" then TitleFromFileName(fileNames[0]) else old(customTitle))
    {
      if |fileNames| > 0 {
        var file := fileNames[0];
        uploadedFileName := Some(file);
        uploadedUrl := Some(objectUrl);
        isCustom := true;
        var fileName := TitleFromFileName(file);
        if customTitle == "" {
          customTitle := fileName;
        }
      }
    }

    /**
     * `handleCreateProject`. In custom mode: needs a title and an upload,
     * then creates a project from them with the parsed tempo or 120. In
     * library mode: needs a chosen song among the instrument's songs, then
     * creates a project from that song. Every project is for the form's
     * student and instrument; a failed check creates nothing.
     */
    method CreateProject(parsedTempo: Option<int>) returns (created: Option<Project>)
      modifies store`projects
      ensures created.Some? <==> old(CanCreate())
      ensures created.None? ==> store.projects == old(store.projects)
      ensures created.Some? ==>
        && store.projects == old(store.projects) + [created.value]
        && created.value.id == NextId(ProjectIds(old(store.projects)))
        && created.value.studentId == studentId && created.value.instrument == instrument
        && created.value.status == NotStarted && created.value.takes == []
      ensures created.Some? && isCustom ==>
        && created.value.title == customTitle
        && created.value.sheetMusicUrl == uploadedUrl.value
        && created.value.tempo == CustomTempo(parsedTempo)
      ensures created.Some? && !isCustom ==>
        var song := AvailableSongs()[FindFirst(AvailableSongs(), SongWithId(selectedSongId.value)).value];
        && song.id == selectedSongId.value && song.instrument == instrument
        && created.value.title == song.title
        && created.value.sheetMusicUrl == song.sheetMusicUrl
        && created.value.tempo == song.tempo
    {
      if isCustom {
        if customTitle == "" || !HasUpload() {
          return None;
        }
        var p := store.CreateProject(customTitle, studentId, instrument, uploadedUrl.value, CustomTempo(parsedTempo));
        return Some(p);
      } else {
        if !SongChosen() {
          return None;
        }
        var songs := AvailableSongs();
        var found := FindFirst(songs, SongWithId(selectedSongId.value));
        if found.None? {
          return None;
        }
        var song := songs[found.value];
        assert song in songs;
        var p := store.CreateProject(song.title, studentId, instrument, song.sheetMusicUrl, song.tempo);
        return Some(p);
      }
    }
  }
}
