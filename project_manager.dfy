/** The project store: one current project with its media pool, its timeline and
    its output settings, saved as JSON behind a byte-order mark. The file system is
    the `disk` map plus a set of paths that cannot be written, JSON text is produced
    and read by the `serialize` and `parse` functions that the caller supplies, and
    fresh ids and timestamps are parameters. */
module ProjectManager {
  import opened Common

  // ---------------------------------------------------------------------------
  // Constants of `defaultSettings`

  const Version: string := "1.0.0"
  const DefaultProjectName: string := "Untitled Project"
  const DefaultResolution: string := "1920x1080"
  const DefaultBitrate: int := 10000000
  const DefaultFps: int := 30
  const MaxLoopCount: int := 99
  const DefaultLoopCount: int := 3

  // ---------------------------------------------------------------------------
  // The project document

  datatype MediaClip = MediaClip(
    id: string, sourcePath: string, fileName: string,
    duration: real, width: real, height: real, fps: real,
    addedAt: string, thumbnailPath: Option<string>)

  datatype SpeedCurve = SpeedCurve(points: seq<SpeedPoint>, interpolation: string)

  datatype TimelineClip = TimelineClip(
    id: string, mediaClipId: string, startTime: real, loopCount: int,
    speedCurve: SpeedCurve, addedAt: string)

  datatype OutputSettings = OutputSettings(resolution: string, bitrate: int, fps: int)

  datatype Preferences = Preferences(autoSave: bool, previewQuality: string, gpuAcceleration: bool)

  /** A project as kept in memory. Fields that a loaded file may lack are optional. */
  datatype Project = Project(
    version: string, projectName: string,
    createdAt: Option<string>, modifiedAt: Option<string>,
    timeline: seq<TimelineClip>, mediaPool: Option<seq<MediaClip>>,
    outputSettings: OutputSettings, preferences: Option<Preferences>)

  datatype Error =
    | NoProject
    | NoFilePath
    | ReadFailed(path: string)
    | WriteFailed(path: string)
    | InvalidJson
    | MissingField(field: string)
    | TimelineNotArray
    | MediaClipNotFound(mediaClipId: string)
    | TimelineClipNotFound(timelineClipId: string)

  // ---------------------------------------------------------------------------
  // The byte-order mark of saved files

  const Bom: char := '\U{FEFF}'

  function WithBom(json: string): (content: string)
    ensures |content| == |json| + 1 && content[0] == Bom && content[1..] == json
  {
    [Bom] + json
  }

  /** What `loadProject` hands to the JSON parser: one leading mark removed, if any. */
  function StripBom(content: string): (json: string)
    ensures |content| > 0 && content[0] == Bom ==> json == content[1..]
    ensures (|content| == 0 || content[0] != Bom) ==> json == content
  {
    if |content| > 0 && content[0] == Bom then content[1..] else content
  }

  /** Saving then loading gives the parser exactly the serialized text, even when
      that text itself starts with a mark. */
  lemma BomRoundTrip(json: string)
    ensures StripBom(WithBom(json)) == json
    ensures StripBom(WithBom(WithBom(json))) == WithBom(json)
  {
  }

  // ---------------------------------------------------------------------------
  // validateProjectData

  datatype RawTimeline = TimelineArray(clips: seq<TimelineClip>) | NotAnArray

  /** Parsed JSON: each top-level field is present or absent. */
  datatype RawProject = RawProject(
    version: Option<string>, projectName: Option<string>,
    createdAt: Option<string>, modifiedAt: Option<string>,
    timeline: Option<RawTimeline>, mediaPool: Option<seq<MediaClip>>,
    outputSettings: Option<OutputSettings>, preferences: Option<Preferences>)

  const RequiredFields: seq<string> := ["version", "projectName", "timeline", "outputSettings"]

  /** `data.hasOwnProperty(field)` for the fields that are checked. */
  predicate HasField(data: RawProject, field: string) {
    match field
    case "version" => data.version.Some?
    case "projectName" => data.projectName.Some?
    case "timeline" => data.timeline.Some?
    case "outputSettings" => data.outputSettings.Some?
    case _ => false
  }

  predicate HasRequiredFields(data: RawProject) {
    data.version.Some? && data.projectName.Some? && data.timeline.Some? && data.outputSettings.Some?
  }

  predicate IsValid(data: RawProject) {
    HasRequiredFields(data) && data.timeline.value.TimelineArray?
  }

  /** The checks in order: the first missing field is reported; with all present a
      version other than the current one only warns, and a timeline that is not an
      array is rejected. */
  method ValidateProjectData(data: RawProject) returns (error: Option<Error>, versionWarning: bool)
    ensures error == None <==> IsValid(data)
    ensures versionWarning <==> HasRequiredFields(data) && data.version.value != Version
    ensures forall k :: 0 <= k < |RequiredFields| && !HasField(data, RequiredFields[k])
              && (forall j :: 0 <= j < k ==> HasField(data, RequiredFields[j]))
              ==> error == Some(MissingField(RequiredFields[k]))
    ensures HasRequiredFields(data) && !IsValid(data) ==> error == Some(TimelineNotArray)
  {
    var i := 0;
    while i < |RequiredFields|
      invariant 0 <= i <= |RequiredFields|
      invariant forall j :: 0 <= j < i ==> HasField(data, RequiredFields[j])
    {
      var field := RequiredFields[i];
      if !HasField(data, field) {
        return Some(MissingField(field)), false;
      }
      i := i + 1;
    }
    assert HasField(data, RequiredFields[0]) && HasField(data, RequiredFields[1]);
    assert HasField(data, RequiredFields[2]) && HasField(data, RequiredFields[3]);
    versionWarning := data.version.value != Version;
    if !data.timeline.value.TimelineArray? {
      return Some(TimelineNotArray), versionWarning;
    }
    error := None;
  }

  /** The validated data as the current project. */
  function ToProject(data: RawProject): (p: Project)
    requires IsValid(data)
    ensures p.version == data.version.value && p.projectName == data.projectName.value
    ensures p.timeline == data.timeline.value.clips && p.outputSettings == data.outputSettings.value
    ensures p.createdAt == data.createdAt && p.modifiedAt == data.modifiedAt
    ensures p.mediaPool == data.mediaPool && p.preferences == data.preferences
  {
    Project(data.version.value, data.projectName.value, data.createdAt, data.modifiedAt,
            data.timeline.value.clips, data.mediaPool, data.outputSettings.value, data.preferences)
  }

  // ---------------------------------------------------------------------------
  // Media clips

  /** `metadata`; a field is `None` when the object does not have it. */
  datatype Metadata = Metadata(
    duration: Option<real>, width: Option<real>, height: Option<real>, fps: Option<real>,
    thumbnailPath: Option<string>)

  /** `x || fallback` for a number: a missing value and zero are both falsy. */
  function OrNumber(x: Option<real>, fallback: real): (r: real)
    ensures x.Some? && x.value != 0.0 ==> r == x.value
    ensures (x.None? || x.value == 0.0) ==> r == fallback
  {
    if x.Some? && x.value != 0.0 then x.value else fallback
  }

  /** `path.basename`: what follows the last `/`, after dropping trailing ones. */
  function Basename(path: string): (name: string)
    ensures '/' !in name
  {
    if path == [] then []
    else if path[|path| - 1] == '/' then Basename(path[..|path| - 1])
    else AfterLastSlash(path)
  }

  function AfterLastSlash(path: string): (name: string)
    ensures '/' !in name
  {
    if path == [] || path[|path| - 1] == '/' then []
    else AfterLastSlash(path[..|path| - 1]) + [path[|path| - 1]]
  }

  lemma {:induction false} AfterLastSlashOf(dir: string, name: string)
    requires '/' !in name
    ensures AfterLastSlash(dir + "/" + name) == name
    decreases |name|
  {
    var p := dir + "/" + name;
    if name == [] {
      assert p[|p| - 1] == '/';
    } else {
      var init := name[..|name| - 1];
      assert p[..|p| - 1] == dir + "/" + init;
      AfterLastSlashOf(dir, init);
      assert init + [name[|name| - 1]] == name;
    }
  }

  /** The file name of `dir/name` is `name`, and a trailing `/` does not change it. */
  lemma {:induction false} BasenameOf(dir: string, name: string)
    requires '/' !in name && name != []
    ensures Basename(dir + "/" + name) == name
    ensures Basename(dir + "/" + name + "/") == name
  {
    var p := dir + "/" + name;
    assert p[|p| - 1] == name[|name| - 1];
    AfterLastSlashOf(dir, name);
    assert (p + "/")[..|p|] == p;
  }

  function NewMediaClip(filePath: string, metadata: Metadata, id: string, now: string): (clip: MediaClip)
    ensures clip.id == id && clip.sourcePath == filePath && clip.fileName == Basename(filePath)
    ensures clip.duration == OrNumber(metadata.duration, 0.0) && clip.width == OrNumber(metadata.width, 1920.0)
    ensures clip.height == OrNumber(metadata.height, 1080.0) && clip.fps == OrNumber(metadata.fps, 30.0)
    ensures clip.addedAt == now
    ensures clip.thumbnailPath == if metadata.thumbnailPath == Some("") then None else metadata.thumbnailPath
  {
    MediaClip(id, filePath, Basename(filePath),
              OrNumber(metadata.duration, 0.0), OrNumber(metadata.width, 1920.0),
              OrNumber(metadata.height, 1080.0), OrNumber(metadata.fps, 30.0), now,
              if metadata.thumbnailPath == Some("") then None else metadata.thumbnailPath)
  }

  /** `mediaPool?.find(clip => clip.id === id)`. */
  function FindMedia(pool: Option<seq<MediaClip>>, id: string): (found: Option<MediaClip>)
    ensures found.Some? <==> pool.Some? && exists i :: 0 <= i < |pool.value| && pool.value[i].id == id
    ensures found.Some? ==> found.value.id == id && found.value in pool.value
    ensures found.Some? ==>
      exists i :: 0 <= i < |pool.value| && pool.value[i] == found.value && forall j :: 0 <= j < i ==> pool.value[j].id != id
  {
    if pool.None? then None else FindFirst(pool.value, id)
  }

  function FindFirst(clips: seq<MediaClip>, id: string): (found: Option<MediaClip>)
    ensures found.Some? <==> exists i :: 0 <= i < |clips| && clips[i].id == id
    ensures found.Some? ==> found.value.id == id && found.value in clips
    ensures found.Some? ==>
      exists i :: 0 <= i < |clips| && clips[i] == found.value && forall j :: 0 <= j < i ==> clips[j].id != id
  {
    if clips == [] then None
    else if clips[0].id == id then Some(clips[0])
    else
      var rest := FindFirst(clips[1..], id);
      assert forall i :: 1 <= i < |clips| ==> clips[i] == clips[1..][i - 1];
      rest
  }

  // ---------------------------------------------------------------------------
  // Timeline clips

  /** `Math.max(1, Math.min(99, n))`. */
  function ClampLoopCount(n: int): (r: int)
    ensures 1 <= r <= MaxLoopCount
    ensures 1 <= n <= MaxLoopCount ==> r == n
    ensures n < 1 ==> r == 1
    ensures n > MaxLoopCount ==> r == MaxLoopCount
  {
    if n < 1 then 1 else if n > MaxLoopCount then MaxLoopCount else n
  }

  /** The options of `addTimelineClip`; `None` where the caller left a field out. */
  datatype TimelineOptions = TimelineOptions(
    startTime: Option<real>, loopCount: Option<int>, speedCurve: Option<seq<SpeedPoint>>)

  const DefaultCurve: seq<SpeedPoint> := [SpeedPoint(0.0, 1.0), SpeedPoint(1.0, 1.0)]

  function NewTimelineClip(mediaClipId: string, options: TimelineOptions, id: string, now: string): (clip: TimelineClip)
    ensures clip.id == id && clip.mediaClipId == mediaClipId && clip.addedAt == now
    ensures clip.startTime == (match options.startTime case Some(t) => t case None => 0.0)
    ensures 1 <= clip.loopCount <= MaxLoopCount
    ensures options.loopCount.None? ==> clip.loopCount == DefaultLoopCount
    ensures options.loopCount.Some? ==> clip.loopCount == ClampLoopCount(options.loopCount.value)
    ensures clip.speedCurve.interpolation == "linear"
    ensures options.speedCurve.None? ==> clip.speedCurve.points == DefaultCurve
    ensures |DefaultCurve| == 2 && DefaultCurve[0].speed == DefaultCurve[1].speed == 1.0
    ensures options.speedCurve.Some? ==> clip.speedCurve.points == options.speedCurve.value
  {
    var startTime := match options.startTime case Some(t) => t case None => 0.0;
    var loopCount := match options.loopCount case Some(n) => n case None => DefaultLoopCount;
    var points := match options.speedCurve case Some(c) => c case None => DefaultCurve;
    TimelineClip(id, mediaClipId, startTime, ClampLoopCount(loopCount), SpeedCurve(points, "linear"), now)
  }

  /** The fields of `updates` that `updateTimelineClip` lets through. */
  datatype ClipUpdates = ClipUpdates(loopCount: Option<int>, speedCurve: Option<SpeedCurve>, startTime: Option<real>)

  /** `Object.assign(clip, safeUpdates)`: a loop count is clamped only when it is
      truthy, so zero is stored as it is. */
  function ApplyUpdates(clip: TimelineClip, updates: ClipUpdates): (r: TimelineClip)
    ensures r.id == clip.id && r.mediaClipId == clip.mediaClipId && r.addedAt == clip.addedAt
    ensures r.startTime == (match updates.startTime case Some(t) => t case None => clip.startTime)
    ensures r.speedCurve == (match updates.speedCurve case Some(c) => c case None => clip.speedCurve)
    ensures updates.loopCount.None? ==> r.loopCount == clip.loopCount
    ensures updates.loopCount == Some(0) ==> r.loopCount == 0
    ensures updates.loopCount.Some? && updates.loopCount.value != 0 ==> r.loopCount == ClampLoopCount(updates.loopCount.value)
  {
    var loopCount :=
      match updates.loopCount
      case None => clip.loopCount
      case Some(n) => if n != 0 then ClampLoopCount(n) else n;
    clip.(loopCount := loopCount,
          speedCurve := match updates.speedCurve case Some(c) => c case None => clip.speedCurve,
          startTime := match updates.startTime case Some(t) => t case None => clip.startTime)
  }

  /** Applying the same updates twice is the same as applying them once. */
  lemma ApplyUpdatesIdempotent(clip: TimelineClip, updates: ClipUpdates)
    ensures ApplyUpdates(ApplyUpdates(clip, updates), updates) == ApplyUpdates(clip, updates)
  {
  }

  /** `findIndex`: the first clip with the id, or -1. */
  function FindIndex(timeline: seq<TimelineClip>, id: string): (i: int)
    ensures -1 <= i < |timeline|
    ensures i == -1 <==> forall j :: 0 <= j < |timeline| ==> timeline[j].id != id
    ensures i >= 0 ==> timeline[i].id == id && forall j :: 0 <= j < i ==> timeline[j].id != id
  {
    if timeline == [] then -1
    else if timeline[0].id == id then 0
    else
      var k := FindIndex(timeline[1..], id);
      assert forall j :: 1 <= j < |timeline| ==> timeline[j] == timeline[1..][j - 1];
      if k == -1 then -1 else k + 1
  }

  /** `timeline.filter(clip => clip.id !== id)`. */
  function RemoveById(timeline: seq<TimelineClip>, id: string): (kept: seq<TimelineClip>)
    ensures |kept| <= |timeline|
    ensures forall c :: c in kept <==> c in timeline && c.id != id
    ensures |kept| < |timeline| <==> exists j :: 0 <= j < |timeline| && timeline[j].id == id
  {
    if timeline == [] then []
    else
      var rest := RemoveById(timeline[1..], id);
      assert forall j :: 1 <= j < |timeline| ==> timeline[j] == timeline[1..][j - 1];
      assert forall c :: c in timeline <==> c == timeline[0] || c in timeline[1..];
      if timeline[0].id == id then rest else [timeline[0]] + rest
  }

  /** The filter keeps the order: it works piece by piece. */
  lemma {:induction false} RemoveByIdAppend(a: seq<TimelineClip>, b: seq<TimelineClip>, id: string)
    ensures RemoveById(a + b, id) == RemoveById(a, id) + RemoveById(b, id)
  {
    if a == [] {
      assert a + b == b;
    } else {
      assert (a + b)[1..] == a[1..] + b;
      RemoveByIdAppend(a[1..], b, id);
    }
  }

  /** Removing a second time removes nothing more. */
  lemma RemoveByIdIdempotent(timeline: seq<TimelineClip>, id: string)
    ensures RemoveById(RemoveById(timeline, id), id) == RemoveById(timeline, id)
  {
    var once := RemoveById(timeline, id);
    forall j | 0 <= j < |once|
      ensures once[j].id != id
    {
      assert once[j] in once;
    }
    NoMatchUnchanged(once, id);
  }

  lemma {:induction false} NoMatchUnchanged(timeline: seq<TimelineClip>, id: string)
    requires forall j :: 0 <= j < |timeline| ==> timeline[j].id != id
    ensures RemoveById(timeline, id) == timeline
  {
    if timeline != [] {
      NoMatchUnchanged(timeline[1..], id);
    }
  }

  // ---------------------------------------------------------------------------
  // calculateTotalDuration

  /** One clip's share: forward plus reverse play of its media, `loopCount` times;
      nothing when its media is not in the pool. */
  function ClipDuration(clip: TimelineClip, pool: Option<seq<MediaClip>>): real {
    match FindMedia(pool, clip.mediaClipId)
    case Some(media) => media.duration * 2.0 * clip.loopCount as real
    case None => 0.0
  }

  function TotalDuration(timeline: seq<TimelineClip>, pool: Option<seq<MediaClip>>): real {
    if timeline == [] then 0.0
    else TotalDuration(timeline[..|timeline| - 1], pool) + ClipDuration(timeline[|timeline| - 1], pool)
  }

  lemma {:induction false} TotalDurationAppend(a: seq<TimelineClip>, b: seq<TimelineClip>, pool: Option<seq<MediaClip>>)
    ensures TotalDuration(a + b, pool) == TotalDuration(a, pool) + TotalDuration(b, pool)
    decreases |b|
  {
    if b == [] {
      assert a + b == a;
    } else {
      var b' := b[..|b| - 1];
      assert (a + b)[..|a + b| - 1] == a + b';
      TotalDurationAppend(a, b', pool);
    }
  }

  /** Clips whose media is missing from the pool add nothing to the total. */
  lemma {:induction false} TotalDurationMissingMedia(timeline: seq<TimelineClip>, pool: Option<seq<MediaClip>>)
    requires forall j :: 0 <= j < |timeline| ==> FindMedia(pool, timeline[j].mediaClipId).None?
    ensures TotalDuration(timeline, pool) == 0.0
  {
    if timeline != [] {
      TotalDurationMissingMedia(timeline[..|timeline| - 1], pool);
    }
  }

  /** Media of non-negative duration and clips of non-negative loop count give a
      non-negative total. */
  lemma {:induction false} TotalDurationNonNegative(timeline: seq<TimelineClip>, pool: Option<seq<MediaClip>>)
    requires pool.Some? ==> forall m :: m in pool.value ==> m.duration >= 0.0
    requires forall j :: 0 <= j < |timeline| ==> timeline[j].loopCount >= 0
    ensures TotalDuration(timeline, pool) >= 0.0
  {
    if timeline != [] {
      TotalDurationNonNegative(timeline[..|timeline| - 1], pool);
      var last := timeline[|timeline| - 1];
      match FindMedia(pool, last.mediaClipId)
      case Some(media) =>
        assert media.duration * 2.0 * last.loopCount as real >= 0.0;
      case None =>
    }
  }

  // ---------------------------------------------------------------------------
  // Output settings

  datatype SettingsUpdates = SettingsUpdates(resolution: Option<string>, bitrate: Option<int>, fps: Option<int>)

  /** `Object.assign(outputSettings, safeSettings)` with only the three known keys. */
  function ApplySettings(settings: OutputSettings, updates: SettingsUpdates): (r: OutputSettings)
    ensures r.resolution == (match updates.resolution case Some(v) => v case None => settings.resolution)
    ensures r.bitrate == (match updates.bitrate case Some(v) => v case None => settings.bitrate)
    ensures r.fps == (match updates.fps case Some(v) => v case None => settings.fps)
  {
    OutputSettings(
      match updates.resolution case Some(v) => v case None => settings.resolution,
      match updates.bitrate case Some(v) => v case None => settings.bitrate,
      match updates.fps case Some(v) => v case None => settings.fps)
  }

  /** No keys change nothing, and a second identical update changes nothing more. */
  lemma ApplySettingsLaws(settings: OutputSettings, updates: SettingsUpdates)
    ensures ApplySettings(settings, SettingsUpdates(None, None, None)) == settings
    ensures ApplySettings(ApplySettings(settings, updates), updates) == ApplySettings(settings, updates)
  {
  }

  // ---------------------------------------------------------------------------
  // The manager

  class Manager {
    var currentProject: Option<Project>
    /** Where the project was last saved or loaded; `None` is `null`. */
    var projectPath: Option<string>
    /** The files on disk, by path. */
    var disk: map<string, string>
    /** The paths the environment refuses to write (a missing folder, no permission). */
    const unwritable: set<string>

    constructor (disk: map<string, string>, unwritable: set<string>)
      ensures currentProject == None && projectPath == None && this.disk == disk
      ensures this.unwritable == unwritable
    {
      currentProject, projectPath := None, None;
      this.disk := disk;
      this.unwritable := unwritable;
    }

    method CreateNewProject(projectName: Option<string>, now: string) returns (p: Project)
      modifies this`currentProject, this`projectPath
      ensures p.version == Version && p.timeline == [] && p.mediaPool == Some([])
      ensures p.projectName == (match projectName case Some(n) => n case None => DefaultProjectName)
      ensures p.createdAt == Some(now) && p.modifiedAt == Some(now)
      ensures p.outputSettings == OutputSettings(DefaultResolution, DefaultBitrate, DefaultFps)
      ensures p.preferences == Some(Preferences(true, "medium", true))
      ensures currentProject == Some(p) && projectPath == None
    {
      var name := match projectName case Some(n) => n case None => DefaultProjectName;
      p := Project(Version, name, Some(now), Some(now), [], Some([]),
                   OutputSettings(DefaultResolution, DefaultBitrate, DefaultFps),
                   Some(Preferences(true, "medium", true)));
      currentProject := Some(p);
      projectPath := None;
    }

    /** `saveProject`: an empty `filePath` stands for a missing one. */
    method SaveProject(filePath: string, now: string, serialize: Project -> string) returns (r: Result<bool, Error>)
      modifies this
      ensures old(currentProject).None? ==> r == Failure(NoProject) && unchanged(this)
      ensures var savePath := if filePath != "" then filePath else (match old(projectPath) case Some(p) => p case None => "");
        && (old(currentProject).Some? && savePath == "" ==> r == Failure(NoFilePath) && unchanged(this))
        && (old(currentProject).Some? && savePath != "" && savePath in unwritable ==>
              && r == Failure(WriteFailed(savePath))
              && currentProject == Some(old(currentProject).value.(modifiedAt := Some(now)))
              && disk == old(disk) && projectPath == old(projectPath))
        && (old(currentProject).Some? && savePath != "" && savePath !in unwritable ==>
              var saved := old(currentProject).value.(modifiedAt := Some(now));
              && r == Success(true)
              && currentProject == Some(saved)
              && disk == old(disk)[savePath := WithBom(serialize(saved))]
              && projectPath == Some(savePath))
    {
      if currentProject.None? {
        return Failure(NoProject);
      }
      var savePath := if filePath != "" then filePath else (match projectPath case Some(p) => p case None => "");
      if savePath == "" {
        return Failure(NoFilePath);
      }
      currentProject := Some(currentProject.value.(modifiedAt := Some(now)));
      var jsonString := serialize(currentProject.value);
      if savePath in unwritable {
        return Failure(WriteFailed(savePath));
      }
      disk := disk[savePath := WithBom(jsonString)];
      projectPath := Some(savePath);
      r := Success(true);
    }

    /** `loadProject`: read, strip one mark, parse, validate, then adopt. */
    method LoadProject(filePath: string, parse: string -> Option<RawProject>) returns (r: Result<Project, Error>)
      modifies this`currentProject, this`projectPath
      ensures filePath !in disk ==> r == Failure(ReadFailed(filePath))
      ensures filePath in disk && parse(StripBom(disk[filePath])).None? ==> r == Failure(InvalidJson)
      ensures filePath in disk && parse(StripBom(disk[filePath])).Some? ==>
        var data := parse(StripBom(disk[filePath])).value;
        (IsValid(data) ==> r == Success(ToProject(data))) && (!IsValid(data) ==> r.Failure?)
      ensures r.Success? ==> currentProject == Some(r.value) && projectPath == Some(filePath)
      ensures r.Failure? ==> currentProject == old(currentProject) && projectPath == old(projectPath)
    {
      if filePath !in disk {
        return Failure(ReadFailed(filePath));
      }
      var content := StripBom(disk[filePath]);
      var parsed := parse(content);
      if parsed.None? {
        return Failure(InvalidJson);
      }
      var error, _ := ValidateProjectData(parsed.value);
      if error.Some? {
        return Failure(error.value);
      }
      var project := ToProject(parsed.value);
      currentProject := Some(project);
      projectPath := Some(filePath);
      r := Success(project);
    }

    /** `addMediaClip`; `addedAt` and `now` are the two clock readings the code takes. */
    method AddMediaClip(filePath: string, metadata: Metadata, id: string, addedAt: string, now: string)
      returns (r: Result<MediaClip, Error>)
      modifies this`currentProject
      ensures old(currentProject).None? ==> r == Failure(NoProject) && currentProject == None
      ensures old(currentProject).Some? ==>
        var p := old(currentProject).value;
        var clip := NewMediaClip(filePath, metadata, id, addedAt);
        var pool := match p.mediaPool case Some(m) => m case None => [];
        && r == Success(clip)
        && currentProject == Some(p.(mediaPool := Some(pool + [clip]), modifiedAt := Some(now)))
    {
      if currentProject.None? {
        return Failure(NoProject);
      }
      var p := currentProject.value;
      var clip := NewMediaClip(filePath, metadata, id, addedAt);
      var pool := match p.mediaPool case Some(m) => m case None => [];
      currentProject := Some(p.(mediaPool := Some(pool + [clip]), modifiedAt := Some(now)));
      r := Success(clip);
    }

    /** `addTimelineClip`; `addedAt` and `now` are the two clock readings the code takes. */
    method AddTimelineClip(mediaClipId: string, options: TimelineOptions, id: string, addedAt: string, now: string)
      returns (r: Result<TimelineClip, Error>)
      modifies this`currentProject
      ensures old(currentProject).None? ==> r == Failure(NoProject) && currentProject == None
      ensures old(currentProject).Some? && FindMedia(old(currentProject).value.mediaPool, mediaClipId).None? ==>
        r == Failure(MediaClipNotFound(mediaClipId)) && currentProject == old(currentProject)
      ensures old(currentProject).Some? && FindMedia(old(currentProject).value.mediaPool, mediaClipId).Some? ==>
        var p := old(currentProject).value;
        var clip := NewTimelineClip(mediaClipId, options, id, addedAt);
        && r == Success(clip)
        && currentProject == Some(p.(timeline := p.timeline + [clip], modifiedAt := Some(now)))
    {
      if currentProject.None? {
        return Failure(NoProject);
      }
      var p := currentProject.value;
      if FindMedia(p.mediaPool, mediaClipId).None? {
        return Failure(MediaClipNotFound(mediaClipId));
      }
      var clip := NewTimelineClip(mediaClipId, options, id, addedAt);
      currentProject := Some(p.(timeline := p.timeline + [clip], modifiedAt := Some(now)));
      r := Success(clip);
    }

    method UpdateTimelineClip(timelineClipId: string, updates: ClipUpdates, now: string) returns (r: Result<TimelineClip, Error>)
      modifies this`currentProject
      ensures old(currentProject).None? ==> r == Failure(NoProject) && currentProject == None
      ensures old(currentProject).Some? && FindIndex(old(currentProject).value.timeline, timelineClipId) == -1 ==>
        r == Failure(TimelineClipNotFound(timelineClipId)) && currentProject == old(currentProject)
      ensures old(currentProject).Some? && FindIndex(old(currentProject).value.timeline, timelineClipId) >= 0 ==>
        var p := old(currentProject).value;
        var i := FindIndex(p.timeline, timelineClipId);
        var updated := ApplyUpdates(p.timeline[i], updates);
        && r == Success(updated)
        && currentProject == Some(p.(timeline := p.timeline[i := updated], modifiedAt := Some(now)))
    {
      if currentProject.None? {
        return Failure(NoProject);
      }
      var p := currentProject.value;
      var clipIndex := FindIndex(p.timeline, timelineClipId);
      if clipIndex == -1 {
        return Failure(TimelineClipNotFound(timelineClipId));
      }
      var updated := ApplyUpdates(p.timeline[clipIndex], updates);
      currentProject := Some(p.(timeline := p.timeline[clipIndex := updated], modifiedAt := Some(now)));
      r := Success(updated);
    }

    method RemoveTimelineClip(timelineClipId: string, now: string) returns (r: Result<bool, Error>)
      modifies this`currentProject
      ensures old(currentProject).None? ==> r == Failure(NoProject) && currentProject == None
      ensures old(currentProject).Some? ==>
        var p := old(currentProject).value;
        var kept := RemoveById(p.timeline, timelineClipId);
        var removed := |kept| < |p.timeline|;
        && r == Success(removed)
        && (removed <==> exists j :: 0 <= j < |p.timeline| && p.timeline[j].id == timelineClipId)
        && currentProject == Some(p.(timeline := kept, modifiedAt := if removed then Some(now) else p.modifiedAt))
    {
      if currentProject.None? {
        return Failure(NoProject);
      }
      var p := currentProject.value;
      var initialLength := |p.timeline|;
      p := p.(timeline := RemoveById(p.timeline, timelineClipId));
      var removed := |p.timeline| < initialLength;
      if removed {
        p := p.(modifiedAt := Some(now));
      }
      currentProject := Some(p);
      r := Success(removed);
    }

    /** The accumulator loop of `calculateTotalDuration`. */
    method CalculateTotalDuration() returns (total: real)
      ensures currentProject.None? ==> total == 0.0
      ensures currentProject.Some? ==>
        total == TotalDuration(currentProject.value.timeline, currentProject.value.mediaPool)
    {
      if currentProject.None? || |currentProject.value.timeline| == 0 {
        return 0.0;
      }
      var timeline := currentProject.value.timeline;
      var pool := currentProject.value.mediaPool;
      total := 0.0;
      var i := 0;
      while i < |timeline|
        invariant 0 <= i <= |timeline|
        invariant total == TotalDuration(timeline[..i], pool)
      {
        assert timeline[..i + 1][..i] == timeline[..i];
        var mediaClip := FindMedia(pool, timeline[i].mediaClipId);
        if mediaClip.Some? {
          var loopDuration := mediaClip.value.duration * 2.0 * timeline[i].loopCount as real;
          total := total + loopDuration;
        }
        i := i + 1;
      }
      assert timeline[..i] == timeline;
    }

    method UpdateOutputSettings(settings: SettingsUpdates, now: string) returns (r: Result<(), Error>)
      modifies this`currentProject
      ensures old(currentProject).None? ==> r == Failure(NoProject) && currentProject == None
      ensures old(currentProject).Some? ==>
        var p := old(currentProject).value;
        && r == Success(())
        && currentProject == Some(p.(outputSettings := ApplySettings(p.outputSettings, settings), modifiedAt := Some(now)))
    {
      if currentProject.None? {
        return Failure(NoProject);
      }
      var p := currentProject.value;
      currentProject := Some(p.(outputSettings := ApplySettings(p.outputSettings, settings), modifiedAt := Some(now)));
      r := Success(());
    }
  }
}
