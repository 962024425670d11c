/**
 * The backup models of aiohasupervisor/models/backups.py: the string enums,
 * the response records with their shared base fields written out, and the
 * request options with their defaults and the "something to back up" rule.
 */
module Backups {
  import opened Wrappers
  import opened Json
  import opened EnumCodec

  // --- enums ---

  /** `BackupType`. */
  datatype BackupType = Full | Partial

  function BackupTypeValue(t: BackupType): string
  {
    match t
    case Full => "full"
    case Partial => "partial"
  }

  function ParseBackupType(s: string): Option<BackupType>
  {
    match s
    case "full" => Some(Full)
    case "partial" => Some(Partial)
    case _ => None
  }

  /** `Folder`: the folders a backup can hold. */
  datatype Folder = Share | Addons | Ssl | Media

  function FolderValue(f: Folder): string
  {
    match f
    case Share => "share"
    case Addons => "addons/local"
    case Ssl => "ssl"
    case Media => "media"
  }

  function ParseFolder(s: string): Option<Folder>
  {
    match s
    case "share" => Some(Share)
    case "addons/local" => Some(Addons)
    case "ssl" => Some(Ssl)
    case "media" => Some(Media)
    case _ => None
  }

  /** `AddonSet`: its one member `ALL` (value "all") selects every installed add-on. */
  datatype AddonSet = All

  /** The enum values are pairwise distinct and each parses back to its member. */
  lemma BackupEnumCodecs()
    ensures IsCodec(BackupTypeValue, ParseBackupType)
    ensures IsCodec(FolderValue, ParseFolder)
  {
  }

  /** The folder values, in declaration order, as the service lists them. */
  lemma FolderValues()
    ensures WireList(FolderValue, [Share, Addons, Ssl, Media]) == ["share", "addons/local", "ssl", "media"]
    ensures DecodeListStrict(ParseFolder, ["share", "addons/local", "ssl", "media"]) == Ok([Share, Addons, Ssl, Media])
  {
    BackupEnumCodecs();
    StrictRoundTrip(FolderValue, ParseFolder, [Share, Addons, Ssl, Media]);
  }

  // --- response records ---

  /** `BackupContent`. */
  datatype BackupContent = BackupContent(homeassistant: bool, addons: seq<string>, folders: seq<Folder>)

  /**
   * `BackupBaseFields`, the fields `Backup` and `BackupComplete` share.
   * `date` is kept as its ISO-8601 text and `size` as a real number.
   */
  datatype BackupBaseFields = BackupBaseFields(
    slug: string, name: string, date: string, backupType: BackupType, size: real, sizeBytes: int,
    location: Option<string>, locations: set<Option<string>>, protected: bool, compressed: bool)

  /** `Backup`: the base fields, then `content`. */
  datatype Backup = Backup(base: BackupBaseFields, content: BackupContent)

  /** `BackupAddon`. */
  datatype BackupAddon = BackupAddon(slug: string, name: string, version: string, size: real)

  /** `BackupComplete`: the base fields, then the details of one backup. */
  datatype BackupComplete = BackupComplete(
    base: BackupBaseFields, supervisorVersion: string, homeassistant: Option<string>, addons: seq<BackupAddon>,
    repositories: seq<string>, folders: seq<Folder>, homeassistantExcludeDatabase: Option<bool>, extra: Option<Json>)

  /** `BackupList`, and `BackupsInfo`, which adds `days_until_stale`. */
  datatype BackupList = BackupList(backups: seq<Backup>)
  datatype BackupsInfo = BackupsInfo(backups: seq<Backup>, daysUntilStale: int)

  /** `BackupJob`, and `NewBackup`, which adds a `slug` that is absent for a backup running in the background. */
  datatype BackupJob = BackupJob(jobId: string)
  datatype NewBackup = NewBackup(jobId: string, slug: Option<string> := None)

  /** `UploadedBackup`. */
  datatype UploadedBackup = UploadedBackup(slug: string)

  // --- request options ---

  /**
   * `FullBackupOptions.location`, typed `list[str | None] | str | None` with
   * the omit sentinel `DEFAULT` as its default: left out entirely,
   * explicitly null, one location, or a list whose null entries mean the
   * local storage.
   */
  datatype Location = DefaultLocation | NullLocation | Named(name: string) | Several(names: seq<Option<string>>)

  /** `DownloadBackupOptions.location`, typed `str | None` with default `DEFAULT`. */
  datatype DownloadLocation = DefaultDownload | NullDownload | NamedDownload(name: string)

  /** `FullBackupOptions`, with the dataclass defaults. */
  datatype FullBackupOptions = FullBackupOptions(
    name: Option<string> := None, password: Option<string> := None, compressed: Option<bool> := None,
    location: Location := DefaultLocation, homeassistantExcludeDatabase: Option<bool> := None,
    background: Option<bool> := None, extra: Option<Json> := None)

  /** What `PartialBackupOptions.addons` may hold: a set of add-on slugs or `AddonSet.ALL`. */
  datatype AddonSelection = Slugs(slugs: set<string>) | AllAddons(member: AddonSet)

  /** `PartialBackupOptions`: the three content fields, then every `FullBackupOptions` field. */
  datatype PartialBackupOptions = PartialBackupOptions(
    addons: Option<AddonSelection>, folders: Option<set<Folder>>, homeassistant: Option<bool>,
    name: Option<string>, password: Option<string>, compressed: Option<bool>, location: Location,
    homeassistantExcludeDatabase: Option<bool>, background: Option<bool>, extra: Option<Json>)

  /** `FullRestoreOptions`, with the dataclass defaults. */
  datatype FullRestoreOptions = FullRestoreOptions(password: Option<string> := None, background: Option<bool> := None)

  /** `PartialRestoreOptions`: the three content fields, then every `FullRestoreOptions` field. */
  datatype PartialRestoreOptions = PartialRestoreOptions(
    addons: Option<set<string>>, folders: Option<set<Folder>>, homeassistant: Option<bool>,
    password: Option<string>, background: Option<bool>)

  /** `BackupsOptions`, `FreezeOptions`, `UploadBackupOptions`, `RemoveBackupOptions` and `DownloadBackupOptions`. */
  datatype BackupsOptions = BackupsOptions(daysUntilStale: int)
  datatype FreezeOptions = FreezeOptions(timeout: int)
  datatype UploadBackupOptions = UploadBackupOptions(location: Option<set<Option<string>>> := None)
  datatype RemoveBackupOptions = RemoveBackupOptions(location: Option<set<Option<string>>> := None)
  datatype DownloadBackupOptions = DownloadBackupOptions(location: DownloadLocation := DefaultDownload)

  /** Left at their defaults, the location fields hold the omit sentinel, not null; every other optional field is null. */
  lemma RequestDefaults()
    ensures FullBackupOptions().location == DefaultLocation != NullLocation
    ensures DownloadBackupOptions().location == DefaultDownload != NullDownload
    ensures var f := FullBackupOptions();
      f.name.None? && f.password.None? && f.compressed.None? && f.homeassistantExcludeDatabase.None?
      && f.background.None? && f.extra.None?
    ensures FullRestoreOptions() == FullRestoreOptions(None, None)
    ensures UploadBackupOptions().location.None? && RemoveBackupOptions().location.None?
  {
  }

  /** The `FullBackupOptions` fields a partial backup inherits. */
  function FullPart(p: PartialBackupOptions): FullBackupOptions
  {
    FullBackupOptions(p.name, p.password, p.compressed, p.location, p.homeassistantExcludeDatabase, p.background, p.extra)
  }

  /** A partial backup's options: the three content fields in front of a full backup's fields. */
  function WithContent(addons: Option<AddonSelection>, folders: Option<set<Folder>>, homeassistant: Option<bool>,
                       f: FullBackupOptions): PartialBackupOptions
  {
    PartialBackupOptions(addons, folders, homeassistant, f.name, f.password, f.compressed, f.location,
                         f.homeassistantExcludeDatabase, f.background, f.extra)
  }

  /** The `FullRestoreOptions` fields a partial restore inherits. */
  function FullRestorePart(p: PartialRestoreOptions): FullRestoreOptions
  {
    FullRestoreOptions(p.password, p.background)
  }

  /**
   * `PartialBackupOptions` extends `FullBackupOptions`: its fields are exactly
   * the three content fields plus an inherited full-backup record, and
   * adding the content fields to a full record and projecting back gives
   * that record unchanged.
   */
  lemma PartialExtendsFull(p: PartialBackupOptions, addons: Option<AddonSelection>, folders: Option<set<Folder>>,
                           homeassistant: Option<bool>, f: FullBackupOptions)
    ensures p == WithContent(p.addons, p.folders, p.homeassistant, FullPart(p))
    ensures FullPart(WithContent(addons, folders, homeassistant, f)) == f
    ensures var q := WithContent(addons, folders, homeassistant, f);
      q.addons == addons && q.folders == folders && q.homeassistant == homeassistant
  {
  }

  /** `PartialRestoreOptions` extends `FullRestoreOptions` in the same way. */
  lemma PartialRestoreExtendsFull(p: PartialRestoreOptions)
    ensures p == PartialRestoreOptions(p.addons, p.folders, p.homeassistant,
                                       FullRestorePart(p).password, FullRestorePart(p).background)
  {
  }

  // --- the "at least one of" rule ---

  /** The `ValueError` raised by `PartialBackupRestoreOptions.__post_init__`. */
  datatype ValueError = ValueError(message: string)

  const NothingSelectedMessage := "At least one of addons, folders, or homeassistant must have a value"

  /** Python truthiness of the `addons` field: an empty set and None are false, a non-empty set and `ALL` true. */
  predicate AddonsTruthy(addons: Option<AddonSelection>)
  {
    match addons
    case None => false
    case Some(Slugs(s)) => s != {}
    case Some(AllAddons(_)) => true
  }

  /** Python truthiness of an optional set. */
  predicate SetTruthy<T>(s: Option<set<T>>)
  {
    s.Some? && s.value != {}
  }

  /** Python truthiness of an optional boolean. */
  predicate BoolTruthy(b: Option<bool>)
  {
    b == Some(true)
  }

  /** `any((addons, folders, homeassistant))`. */
  predicate SelectsSomething(addons: Option<AddonSelection>, folders: Option<set<Folder>>, homeassistant: Option<bool>)
  {
    AddonsTruthy(addons) || SetTruthy(folders) || BoolTruthy(homeassistant)
  }

  /** The invariant every constructed partial backup keeps. */
  predicate ValidPartialBackup(p: PartialBackupOptions)
  {
    SelectsSomething(p.addons, p.folders, p.homeassistant)
  }

  /** The invariant every constructed partial restore keeps. */
  predicate ValidPartialRestore(p: PartialRestoreOptions)
  {
    SelectsSomething(if p.addons.Some? then Some(Slugs(p.addons.value)) else None, p.folders, p.homeassistant)
  }

  /** `PartialBackupOptions(...)`: the constructor with its defaults and its validation. */
  function NewPartialBackupOptions(
    addons: Option<AddonSelection> := None, folders: Option<set<Folder>> := None, homeassistant: Option<bool> := None,
    name: Option<string> := None, password: Option<string> := None, compressed: Option<bool> := None,
    location: Location := DefaultLocation, homeassistantExcludeDatabase: Option<bool> := None,
    background: Option<bool> := None, extra: Option<Json> := None): (r: Result<PartialBackupOptions, ValueError>)
    ensures r.Ok? <==> SelectsSomething(addons, folders, homeassistant)
    ensures r.Ok? ==> ValidPartialBackup(r.value)
    ensures r.Ok? ==> r.value == PartialBackupOptions(addons, folders, homeassistant, name, password, compressed,
                                                      location, homeassistantExcludeDatabase, background, extra)
    ensures r.Err? ==> r.error == ValueError(NothingSelectedMessage)
  {
    var p := PartialBackupOptions(addons, folders, homeassistant, name, password, compressed,
                                  location, homeassistantExcludeDatabase, background, extra);
    if SelectsSomething(addons, folders, homeassistant) then Ok(p) else Err(ValueError(NothingSelectedMessage))
  }

  /** `PartialRestoreOptions(...)`: the constructor with its defaults and its validation. */
  function NewPartialRestoreOptions(
    addons: Option<set<string>> := None, folders: Option<set<Folder>> := None, homeassistant: Option<bool> := None,
    password: Option<string> := None, background: Option<bool> := None): (r: Result<PartialRestoreOptions, ValueError>)
    ensures r.Ok? <==> SetTruthy(addons) || SetTruthy(folders) || BoolTruthy(homeassistant)
    ensures r.Ok? ==> ValidPartialRestore(r.value)
    ensures r.Ok? ==> r.value == PartialRestoreOptions(addons, folders, homeassistant, password, background)
    ensures r.Err? ==> r.error == ValueError(NothingSelectedMessage)
  {
    var p := PartialRestoreOptions(addons, folders, homeassistant, password, background);
    if ValidPartialRestore(p) then Ok(p) else Err(ValueError(NothingSelectedMessage))
  }

  /** Only the three content fields decide; name, password, location, background and extra never do. */
  lemma OnlyContentFieldsCount(
    addons: Option<AddonSelection>, folders: Option<set<Folder>>, homeassistant: Option<bool>,
    name: Option<string>, password: Option<string>, compressed: Option<bool>, location: Location,
    exclude: Option<bool>, background: Option<bool>, extra: Option<Json>)
    ensures NewPartialBackupOptions(addons, folders, homeassistant, name, password, compressed, location, exclude,
                                    background, extra).Ok?
            == NewPartialBackupOptions(addons, folders, homeassistant).Ok?
  {
  }

  /** The examples of the options tests: each content field alone suffices; a name alone, a background flag alone, empty sets or `homeassistant=False` do not. */
  lemma ConstructionExamples()
    ensures NewPartialBackupOptions(addons := Some(Slugs({"a"})), name := Some("good")).Ok?
    ensures NewPartialBackupOptions(folders := Some({Ssl}), name := Some("good")).Ok?
    ensures NewPartialBackupOptions(homeassistant := Some(true), name := Some("good")).Ok?
    ensures NewPartialBackupOptions(addons := Some(AllAddons(All))).Ok?
    ensures NewPartialBackupOptions(name := Some("bad")) == Err(ValueError(NothingSelectedMessage))
    ensures NewPartialBackupOptions(addons := Some(Slugs({})), folders := Some({}), homeassistant := Some(false)).Err?
    ensures NewPartialRestoreOptions(addons := Some({"a"})).Ok?
    ensures NewPartialRestoreOptions(folders := Some({Ssl})).Ok?
    ensures NewPartialRestoreOptions(homeassistant := Some(true)).Ok?
    ensures NewPartialRestoreOptions(background := Some(true)) == Err(ValueError(NothingSelectedMessage))
  {
  }

  /**
   * A constructed partial backup carries the full-backup fields it was given:
   * it is the given content fields on top of
   * `FullBackupOptions(name, password, compressed, location, ...)`, and the
   * inherited fields left out default exactly as a full backup's do.
   */
  lemma ConstructedPartialIsFull(
    addons: Option<AddonSelection>, folders: Option<set<Folder>>, homeassistant: Option<bool>,
    name: Option<string>, password: Option<string>, compressed: Option<bool>, location: Location,
    exclude: Option<bool>, background: Option<bool>, extra: Option<Json>)
    ensures var r := NewPartialBackupOptions(addons, folders, homeassistant, name, password, compressed, location,
                                             exclude, background, extra);
      r.Ok? ==> (FullPart(r.value) == FullBackupOptions(name, password, compressed, location, exclude, background, extra)
                 && r.value == WithContent(addons, folders, homeassistant, FullPart(r.value)))
    ensures var r := NewPartialBackupOptions(addons, folders, homeassistant);
      r.Ok? ==> FullPart(r.value) == FullBackupOptions()
    ensures var r := NewPartialRestoreOptions(Some({"a"}), folders, homeassistant);
      r.Ok? && FullRestorePart(r.value) == FullRestoreOptions()
  {
  }
}
