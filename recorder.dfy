/** The recording coordinator: a two-state session (idle or recording)
    held in three fields. Stopping a session writes twice, in order: the
    audio bytes to the content store, then an entry to the database. The
    clocks are parameters: `Date.now()` readings and the database engine's
    clock. */
module Recorder {
  import opened Common
  import opened Strings
  import opened Schema
  import opened Dao
  import opened AudioFiles

  /** `Buffer.from('Fake audio data')`, the placeholder recording. */
  const FAKE_AUDIO_DATA: Bytes := [70, 97, 107, 101, 32, 97, 117, 100, 105, 111, 32, 100, 97, 116, 97]

  const TRANSCRIPT_PLACEHOLDER: string := "test transcript"

  /** The values of `isRecording`, `currentRecordingId` and `recorodingStartTime`. */
  datatype Session = Session(isRecording: bool, recordingId: Option<string>, startTime: Option<int>)

  const IDLE: Session := Session(false, None, None)

  /** The three fields move together, and an id is a decimal clock reading. */
  ghost predicate SessionValid(s: Session) {
    && (s.isRecording <==> s.recordingId.Some?)
    && (s.isRecording <==> s.startTime.Some?)
    && (s.recordingId.Some? ==> AllDigits(s.recordingId.value))
  }

  /** startRecording: `idClock` and `startClock` are the two `Date.now()`
      readings it takes, for the id and for the start time. */
  function StartOn(s: Session, idClock: nat, startClock: int): (Session, Result<string>) {
    if s.isRecording then (s, Err(AlreadyRecording))
    else
      var id := DecimalString(idClock);
      (Session(true, Some(id), Some(startClock)), Ok(id))
  }

  /** `(Date.now() - this.recorodingStartTime) / 1000`, exactly. */
  function ElapsedSeconds(start: int, now: int): real {
    (now - start) as real / 1000.0
  }

  /** What stopRecording resolves to. */
  datatype StopResult = StopResult(recordingId: string, entryId: int, filePath: string, duration: real)

  datatype StopOutcome = StopOutcome(session: Session, disk: Disk, tables: Tables, result: Result<StopResult>)

  function EntryTitle(id: string): string {
    "Recording " + id
  }

  /** stopRecording: save the audio, then create the entry; the session is
      cleared only after both have succeeded. `now` is the `Date.now()`
      reading, `dbNow` the engine's clock and `dbFault` a failure the engine
      may report for the INSERT. */
  function StopOn(s: Session, disk: Disk, baseDir: string, tables: Tables,
                  now: int, dbNow: int, dbFault: Option<string>): StopOutcome
    requires SessionValid(s)
  {
    if !s.isRecording then StopOutcome(s, disk, tables, Err(NotRecording))
    else
      var id := s.recordingId.value;
      var duration := ElapsedSeconds(s.startTime.value, now);
      var saved := SaveAudioOn(disk, baseDir, id, FAKE_AUDIO_DATA, DEFAULT_FORMAT);
      match saved.result
      case Err(e) => StopOutcome(s, saved.disk, tables, Err(e))
      case Ok(path) =>
        var created := CreateEntryOn(tables, Some(EntryTitle(id)), Some(path), Some(duration),
                                     Some(TRANSCRIPT_PLACEHOLDER), dbNow, dbFault);
        match created.result
        case Err(e) => StopOutcome(s, saved.disk, created.tables, Err(e))
        case Ok(entryId) => StopOutcome(IDLE, saved.disk, created.tables, Ok(StopResult(id, entryId, path, duration)))
  }

  /** startRecording while recording rejects and changes nothing; while idle
      it starts a session whose id is the decimal reading of the clock. */
  lemma StartEffect(s: Session, idClock: nat, startClock: int)
    requires SessionValid(s)
    ensures var (s2, r) := StartOn(s, idClock, startClock);
      && SessionValid(s2)
      && (s.isRecording ==> s2 == s && r == Err(AlreadyRecording))
      && (!s.isRecording ==>
            && r == Ok(DecimalString(idClock)) && DigitsValue(r.value) == idClock
            && s2 == Session(true, Some(r.value), Some(startClock)))
  {
  }

  /** stopRecording while idle rejects and writes neither file nor entry. */
  lemma StopWhenIdle(s: Session, disk: Disk, baseDir: string, tables: Tables, now: int, dbNow: int, dbFault: Option<string>)
    requires SessionValid(s) && !s.isRecording
    ensures StopOn(s, disk, baseDir, tables, now, dbNow, dbFault) == StopOutcome(s, disk, tables, Err(NotRecording))
  {
  }

  /** A successful stop returns to idle and leaves an entry whose audio path
      is exactly the saved file, titled with the session's id, and a file
      holding the audio that the base directory listing shows under that id. */
  lemma StopSuccess(s: Session, disk: Disk, baseDir: string, tables: Tables, now: int, dbNow: int)
    requires SessionValid(s) && s.isRecording && Valid(tables) && DiskValid(disk)
    requires StopOn(s, disk, baseDir, tables, now, dbNow, None).result.Ok?
    ensures var o := StopOn(s, disk, baseDir, tables, now, dbNow, None);
      var res := o.result.value;
      && o.session == IDLE && SessionValid(o.session)
      && res.recordingId == s.recordingId.value
      && res.filePath == FilePath(baseDir, res.recordingId, DEFAULT_FORMAT)
      && res.duration == ElapsedSeconds(s.startTime.value, now)
      && FindEntry(o.tables.entries, res.entryId) ==
           Some(Entry(res.entryId, Some(EntryTitle(res.recordingId)), res.filePath, Some(res.duration),
                      Some(TRANSCRIPT_PLACEHOLDER), dbNow, dbNow))
      && ReadFile(o.disk, res.filePath) == Ok(FAKE_AUDIO_DATA)
      && ListIn(o.disk, baseDir).Ok? && AudioFile(res.recordingId, res.filePath) in ListIn(o.disk, baseDir).value
      && Valid(o.tables) && DiskValid(o.disk)
  {
    var id := s.recordingId.value;
    var saved := SaveAudioOn(disk, baseDir, id, FAKE_AUDIO_DATA, DEFAULT_FORMAT);
    var path := saved.result.value;
    var duration := ElapsedSeconds(s.startTime.value, now);
    DigitsAreSafe(id);
    SaveThenRead(disk, baseDir, id, FAKE_AUDIO_DATA, path);
    SaveThenList(disk, baseDir, id, FAKE_AUDIO_DATA);
    WriteKeepsValid(disk, path, FAKE_AUDIO_DATA);
    CreateEntryEffect(tables, Some(EntryTitle(id)), Some(path), Some(duration), Some(TRANSCRIPT_PLACEHOLDER), dbNow);
  }

  /** A failed stop keeps the session recording with the same id and start
      time. When the save fails no entry is created; when the entry insert
      fails the saved file stays. */
  lemma StopFailure(s: Session, disk: Disk, baseDir: string, tables: Tables, now: int, dbNow: int, dbFault: Option<string>)
    requires SessionValid(s) && s.isRecording
    ensures var o := StopOn(s, disk, baseDir, tables, now, dbNow, dbFault);
      var saved := SaveAudioOn(disk, baseDir, s.recordingId.value, FAKE_AUDIO_DATA, DEFAULT_FORMAT);
      && (o.result.Err? ==> o.session == s)
      && (saved.result.Err? ==> o == StopOutcome(s, disk, tables, Err(saved.result.error)))
      && (saved.result.Ok? && dbFault.Some? ==>
            && o == StopOutcome(s, saved.disk, tables, Err(Engine(dbFault.value)))
            && ReadFile(o.disk, saved.result.value) == Ok(FAKE_AUDIO_DATA))
  {
    var saved := SaveAudioOn(disk, baseDir, s.recordingId.value, FAKE_AUDIO_DATA, DEFAULT_FORMAT);
    if saved.result.Ok? {
      SaveThenRead(disk, baseDir, s.recordingId.value, FAKE_AUDIO_DATA, saved.result.value);
    }
  }

  /** With a clock that does not run backwards, durations are non-negative. */
  lemma ElapsedSecondsNonNegative(start: int, now: int)
    requires start <= now
    ensures ElapsedSeconds(start, now) >= 0.0
    ensures ElapsedSeconds(start, now) * 1000.0 == (now - start) as real
  {
  }

  class AudioRecorder {
    var isRecording: bool
    var currentRecordingId: Option<string>
    /** The JavaScript field is spelled `recorodingStartTime`. */
    var recordingStartTime: Option<int>
    const fileManager: AudioFileManager
    const dao: JournalDAO

    function State(): Session
      reads this
    {
      Session(isRecording, currentRecordingId, recordingStartTime)
    }

    /** The session is consistent and the file manager's disk is well formed.
        The database need not be ready: the recorder is built when its module
        loads, and only stopRecording reaches the database. */
    ghost predicate Valid()
      reads this, fileManager
    {
      SessionValid(State()) && fileManager.Valid()
    }

    constructor (fileManager: AudioFileManager, dao: JournalDAO)
      requires fileManager.Valid()
      ensures State() == IDLE && this.fileManager == fileManager && this.dao == dao
      ensures Valid()
    {
      isRecording := false;
      currentRecordingId := None;
      recordingStartTime := None;
      this.fileManager := fileManager;
      this.dao := dao;
    }

    method StartRecording(idClock: nat, startClock: int) returns (r: Result<string>)
      requires Valid()
      modifies this
      ensures Valid()
      ensures (State(), r) == StartOn(old(State()), idClock, startClock)
    {
      if isRecording {
        return Err(AlreadyRecording);
      }
      currentRecordingId := Some(DecimalString(idClock));
      recordingStartTime := Some(startClock);
      isRecording := true;
      r := Ok(currentRecordingId.value);
    }

    /** Stopping calls createEntry, so the database must be ready. */
    method StopRecording(now: int, dbNow: int, dbFault: Option<string>) returns (r: Result<StopResult>)
      requires Valid() && dao.Ready()
      modifies this, fileManager, dao.db
      ensures Valid() && dao.Ready()
      ensures StopOutcome(State(), fileManager.disk, dao.db.tables, r) ==
              StopOn(old(State()), old(fileManager.disk), fileManager.baseDir, old(dao.db.tables), now, dbNow, dbFault)
    {
      if !isRecording {
        return Err(NotRecording);
      }
      var recordingId := currentRecordingId.value;
      var duration := ElapsedSeconds(recordingStartTime.value, now);
      var saved := fileManager.SaveAudioFile(recordingId, FAKE_AUDIO_DATA, DEFAULT_FORMAT);
      if saved.Err? {
        return Err(saved.error);
      }
      var filePath := saved.value;
      var entryId := dao.CreateEntry(Some(EntryTitle(recordingId)), Some(filePath), Some(duration),
                                     Some(TRANSCRIPT_PLACEHOLDER), dbNow, dbFault);
      if entryId.Err? {
        return Err(entryId.error);
      }
      isRecording := false;
      currentRecordingId := None;
      recordingStartTime := None;
      r := Ok(StopResult(recordingId, entryId.value, filePath, duration));
    }

    /** playRecording: playback is not implemented; it resolves and changes nothing. */
    method PlayRecording(id: string) returns (r: Result<()>)
      ensures r == Ok(())
    {
      r := Ok(());
    }
  }
}
