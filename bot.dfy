/** bot.py: the handlers of the Telegram bot. Each user has a staged file
    (`context.user_data`'s 'current_file' and 'file_type'), and all users
    share the one `user_manager`. A handler's messages to the chat are
    modelled as the sequence of replies it makes; the transport itself is
    not modelled. */
module Bot {
  import opened Wrappers
  import opened Config
  import opened Users
  import opened Routing
  import VideoProcessor

  /** 'current_file' and 'file_type': the two keys are always written together. */
  datatype Staged = Staged(path: string, kind: FileKind)

  /** The texts the bot sends, or edits its message into, by what they say. */
  datatype Notice =
    | VideoReceived
    | FileReceived(kind: FileKind)
    | UnsupportedFormat
    | ChooseOption
    | SelectOutputFormat
    | SelectAudioFormat
    | SendFileFirst
    | StartingConversion
    | ConversionFailed
    | ExtractingAudio
    | ExtractionFailed
    | MergeQueue(count: nat)
    | SendAudioToMerge
    | SendSplitTimes
    | SendNewName
    | InvalidSplitTimes
    | SplittingVideo
    | SplitFailed
    | RenameFailed

  /** `send_document`, `send_audio` or `send_video`. */
  datatype Channel = AsDocument | AsAudio | AsVideo

  datatype Reply =
    | Say(notice: Notice)
    | Progress(percent: int)
    | Deliver(channel: Channel, path: string, fileName: Option<string>)
    | DeleteStatus

  /** One "... {progress}%" edit per percentage the processor reports. */
  function Progresses(ps: seq<int>): (rs: seq<Reply>)
    ensures |rs| == |ps|
    ensures forall i :: 0 <= i < |ps| ==> rs[i] == Progress(ps[i])
  {
    seq(|ps|, i requires 0 <= i < |ps| => Progress(ps[i]))
  }

  // ---------------------------------------------------------------------------
  // What the chat sees

  /** A file reaches the chat. */
  predicate Delivered(rs: seq<Reply>)
  {
    exists i | 0 <= i < |rs| :: rs[i].Deliver?
  }

  /** Progress edits never go back. */
  predicate ProgressMonotone(rs: seq<Reply>)
  {
    forall i, j :: 0 <= i < j < |rs| && rs[i].Progress? && rs[j].Progress? ==> rs[i].percent <= rs[j].percent
  }

  /** Progress edits are percentages. */
  predicate ProgressBounded(rs: seq<Reply>)
  {
    forall i :: 0 <= i < |rs| && rs[i].Progress? ==> 0 <= rs[i].percent <= 100
  }

  /** A processing job as the chat sees it: the start notice, one edit per
      progress report, then the result when the processor returned, or the
      failure notice when it raised. */
  function JobReplies(start: Notice, run: VideoProcessor.Trace, success: seq<Reply>, failure: Notice): seq<Reply>
  {
    [Say(start)] + Progresses(run.reported) + (if run.completed then success else [Say(failure)])
  }

  lemma JobParts(start: Notice, run: VideoProcessor.Trace, success: seq<Reply>, failure: Notice)
    ensures var rs := JobReplies(start, run, success, failure);
      var n := |run.reported|;
      var tail := if run.completed then success else [Say(failure)];
      && |rs| == 1 + n + |tail|
      && rs[0] == Say(start)
      && (forall i :: 1 <= i <= n ==> rs[i] == Progress(run.reported[i - 1]))
      && (forall i :: 1 + n <= i < |rs| ==> rs[i] == tail[i - 1 - n])
  {
  }

  /** The result part of a job holds no progress edit. */
  predicate NoProgress(rs: seq<Reply>)
  {
    forall i :: 0 <= i < |rs| ==> !rs[i].Progress?
  }

  /** A job delivers exactly when the processor returned. */
  lemma JobDelivers(start: Notice, run: VideoProcessor.Trace, success: seq<Reply>, failure: Notice)
    requires Delivered(success)
    ensures Delivered(JobReplies(start, run, success, failure)) <==> run.completed
  {
    var rs := JobReplies(start, run, success, failure);
    var n := |run.reported|;
    JobParts(start, run, success, failure);
    if run.completed {
      var k :| 0 <= k < |success| && success[k].Deliver?;
      assert rs[1 + n + k].Deliver?;
    } else {
      assert forall i :: 0 <= i < |rs| ==> !rs[i].Deliver?;
    }
  }

  /** A job shows a percentage exactly when the processor reported it. */
  lemma JobShows(start: Notice, run: VideoProcessor.Trace, success: seq<Reply>, failure: Notice, p: int)
    requires NoProgress(success)
    ensures Progress(p) in JobReplies(start, run, success, failure) <==> p in run.reported
  {
    var rs := JobReplies(start, run, success, failure);
    JobParts(start, run, success, failure);
    if Progress(p) in rs {
      var i :| 0 <= i < |rs| && rs[i] == Progress(p);
      assert run.reported[i - 1] == p;
    }
    if p in run.reported {
      var i :| 0 <= i < |run.reported| && run.reported[i] == p;
      assert rs[i + 1] == Progress(p);
    }
  }

  /** A job's progress edits rise, and stay within [0, 100], when the
      processor's reports do. */
  lemma JobProgress(start: Notice, run: VideoProcessor.Trace, success: seq<Reply>, failure: Notice)
    requires NoProgress(success)
    requires VideoProcessor.Sorted(run.reported)
    requires forall i :: 0 <= i < |run.reported| ==> 0 <= run.reported[i] <= 100
    ensures ProgressMonotone(JobReplies(start, run, success, failure))
    ensures ProgressBounded(JobReplies(start, run, success, failure))
  {
    var rs := JobReplies(start, run, success, failure);
    var n := |run.reported|;
    JobParts(start, run, success, failure);
    assert forall i :: 0 <= i < |rs| && rs[i].Progress? ==> 1 <= i <= n && rs[i].percent == run.reported[i - 1];
  }

  /** A result reply other than a notice of the job appears exactly when
      the processor returned. */
  lemma JobHas(start: Notice, run: VideoProcessor.Trace, success: seq<Reply>, failure: Notice, r: Reply)
    requires r in success && !r.Progress?
    requires r != Say(start) && r != Say(failure)
    ensures r in JobReplies(start, run, success, failure) <==> run.completed
  {
    var rs := JobReplies(start, run, success, failure);
    var n := |run.reported|;
    JobParts(start, run, success, failure);
    if run.completed {
      var k :| 0 <= k < |success| && success[k] == r;
      assert rs[1 + n + k] == r;
    } else {
      assert forall i :: 0 <= i < |rs| ==> rs[i] != r;
    }
  }

  /** Whatever the plan, when it is one of the processor's schedules: the
      file is delivered exactly when the processor returns, 100% is shown
      exactly then, and the progress edits rise within [0, 100]. */
  lemma JobOutcome(start: Notice, plan: VideoProcessor.Plan, fails: Option<nat>, success: seq<Reply>, failure: Notice)
    requires VideoProcessor.IsSchedule(plan)
    requires Delivered(success) && NoProgress(success)
    ensures var run := VideoProcessor.Run(plan, true, fails, 0);
      var rs := JobReplies(start, run, success, failure);
      && (Delivered(rs) <==> run.completed)
      && (Progress(100) in rs <==> run.completed)
      && ProgressMonotone(rs)
      && ProgressBounded(rs)
  {
    var run := VideoProcessor.Run(plan, true, fails, 0);
    VideoProcessor.ScheduleGuarantees(plan, true, fails);
    JobDelivers(start, run, success, failure);
    JobShows(start, run, success, failure, 100);
    JobProgress(start, run, success, failure);
  }

  // ---------------------------------------------------------------------------
  // The replies of each handler, as functions of the staged file

  /** `process_conversion`: the document "converted.<format>" when the
      conversion returns. */
  function ConversionReplies(staged: Option<Staged>, format: string, fails: Option<nat>): seq<Reply>
  {
    match staged
    case None => [Say(SendFileFirst)]
    case Some(s) =>
      JobReplies(StartingConversion, VideoProcessor.Run(VideoProcessor.ConvertPlan(), true, fails, 0),
        [Deliver(AsDocument, VideoProcessor.ConvertedPath(s.path, format), Some("converted." + format))],
        ConversionFailed)
  }

  /** `process_audio_extraction`: the audio "audio.<format>" when the
      extraction returns. */
  function ExtractionReplies(staged: Option<Staged>, format: string, fails: Option<nat>): seq<Reply>
  {
    match staged
    case None => [Say(SendFileFirst)]
    case Some(s) =>
      JobReplies(ExtractingAudio, VideoProcessor.Run(VideoProcessor.VideoToAudioPlan(), true, fails, 0),
        [Deliver(AsAudio, VideoProcessor.AudioPath(s.path, format), Some("audio." + format))],
        ExtractionFailed)
  }

  /** `process_video_split`: the status message is sent before the staged
      file is looked up, so a missing file ends in the failure notice; on
      success the video is sent and the status message deleted. */
  function SplitReplies(staged: Option<Staged>, fails: Option<nat>): seq<Reply>
  {
    match staged
    case None => [Say(SplittingVideo), Say(SplitFailed)]
    case Some(s) =>
      JobReplies(SplittingVideo, VideoProcessor.Run(VideoProcessor.SplitPlan(), true, fails, 0),
        [Deliver(AsVideo, VideoProcessor.SplitPath(s.path), None), DeleteStatus],
        SplitFailed)
  }

  /** `process_rename`: the copy goes back as a video when the staged file
      is one, as a document otherwise, under the new name. */
  function RenameReplies(staged: Option<Staged>, newName: string, fails: Option<nat>): seq<Reply>
  {
    match staged
    case None => [Say(RenameFailed)]
    case Some(s) =>
      if VideoProcessor.Raises(fails, 0) then [Say(RenameFailed)]
      else [Deliver(if s.kind == Video then AsVideo else AsDocument, VideoProcessor.RenamedPath(newName), Some(newName))]
  }

  lemma SayNotDelivered(n: Notice)
    ensures !Delivered([Say(n)])
  {
    assert forall i :: 0 <= i < |[Say(n)]| ==> [Say(n)][i] == Say(n);
  }

  lemma OneDelivery(r: Reply)
    requires r.Deliver?
    ensures Delivered([r]) && NoProgress([r])
  {
    assert [r][0] == r;
  }

  /** Conversion: without a staged file the user is asked for one and
      nothing else happens; otherwise the document arrives exactly when
      neither toolkit call raises, and 100% is shown exactly then. */
  lemma ConversionOutcome(staged: Option<Staged>, format: string, fails: Option<nat>)
    ensures var rs := ConversionReplies(staged, format, fails);
      && (staged.None? ==> rs == [Say(SendFileFirst)])
      && (Delivered(rs) <==> staged.Some? && (fails.None? || fails.value >= 2))
      && (staged.Some? ==> (Progress(100) in rs <==> Delivered(rs)))
      && ProgressMonotone(rs) && ProgressBounded(rs)
  {
    if staged.None? {
      SayNotDelivered(SendFileFirst);
    } else {
      var d := Deliver(AsDocument, VideoProcessor.ConvertedPath(staged.value.path, format), Some("converted." + format));
      OneDelivery(d);
      VideoProcessor.ConvertSchedule();
      JobOutcome(StartingConversion, VideoProcessor.ConvertPlan(), fails, [d], ConversionFailed);
      VideoProcessor.ScheduleGuarantees(VideoProcessor.ConvertPlan(), true, fails);
    }
  }

  /** Extraction: as conversion, with the extraction's two calls. */
  lemma ExtractionOutcome(staged: Option<Staged>, format: string, fails: Option<nat>)
    ensures var rs := ExtractionReplies(staged, format, fails);
      && (staged.None? ==> rs == [Say(SendFileFirst)])
      && (Delivered(rs) <==> staged.Some? && (fails.None? || fails.value >= 2))
      && (staged.Some? ==> (Progress(100) in rs <==> Delivered(rs)))
      && ProgressMonotone(rs) && ProgressBounded(rs)
  {
    if staged.None? {
      SayNotDelivered(SendFileFirst);
    } else {
      var d := Deliver(AsAudio, VideoProcessor.AudioPath(staged.value.path, format), Some("audio." + format));
      OneDelivery(d);
      VideoProcessor.VideoToAudioSchedule();
      JobOutcome(ExtractingAudio, VideoProcessor.VideoToAudioPlan(), fails, [d], ExtractionFailed);
      VideoProcessor.ScheduleGuarantees(VideoProcessor.VideoToAudioPlan(), true, fails);
    }
  }

  /** Split: the video arrives exactly when a file is staged and none of the
      three toolkit calls raises; the status message is deleted only then. */
  lemma SplitOutcome(staged: Option<Staged>, fails: Option<nat>)
    ensures var rs := SplitReplies(staged, fails);
      && (Delivered(rs) <==> staged.Some? && (fails.None? || fails.value >= 3))
      && (DeleteStatus in rs <==> Delivered(rs))
      && (Progress(100) in rs <==> Delivered(rs))
      && ProgressMonotone(rs) && ProgressBounded(rs)
  {
    var rs := SplitReplies(staged, fails);
    if staged.None? {
      assert forall i :: 0 <= i < |rs| ==> rs[i].Say?;
    } else {
      var d := Deliver(AsVideo, VideoProcessor.SplitPath(staged.value.path), None);
      var success := [d, DeleteStatus];
      assert success[0] == d;
      VideoProcessor.SplitSchedule();
      JobOutcome(SplittingVideo, VideoProcessor.SplitPlan(), fails, success, SplitFailed);
      VideoProcessor.ScheduleGuarantees(VideoProcessor.SplitPlan(), true, fails);
      JobHas(SplittingVideo, VideoProcessor.Run(VideoProcessor.SplitPlan(), true, fails, 0), success, SplitFailed, DeleteStatus);
    }
  }

  /** Rename: the copy arrives exactly when a file is staged and the copy
      does not raise, as a video exactly when the staged file is a video. */
  lemma RenameOutcome(staged: Option<Staged>, newName: string, fails: Option<nat>)
    ensures var rs := RenameReplies(staged, newName, fails);
      && (Delivered(rs) <==> staged.Some? && !VideoProcessor.Raises(fails, 0))
      && (Delivered(rs) ==> rs == [Deliver(if staged.value.kind == Video then AsVideo else AsDocument,
                                           VideoProcessor.RenamedPath(newName), Some(newName))])
      && (!Delivered(rs) ==> rs == [Say(RenameFailed)])
  {
    var rs := RenameReplies(staged, newName, fails);
    if staged.None? || VideoProcessor.Raises(fails, 0) {
      SayNotDelivered(RenameFailed);
    } else {
      OneDelivery(rs[0]);
    }
  }

  // ---------------------------------------------------------------------------
  // button_handler and handle_text over the handlers' effects

  /** The merge queue `start_merge_process` leaves: the staged file alone,
      or nothing. */
  function StartQueue(staged: Option<Staged>): (queue: seq<Task>)
    ensures |queue| <= 1
    ensures queue == [] <==> staged.None?
  {
    match staged
    case None => []
    case Some(s) => [Task(s.path, s.kind)]
  }

  /** All queues after `start_merge_process`: the user's queue is cleared
      if it existed, then receives the staged file if there is one. */
  function QueuesAfterMergeStart(queues: map<int, seq<Task>>, user: int, staged: Option<Staged>): (after: map<int, seq<Task>>)
    ensures forall v :: v != user ==> (v in after <==> v in queues) && (v in queues ==> after[v] == queues[v])
    ensures user in after <==> user in queues || staged.Some?
    ensures user in after ==> after[user] == StartQueue(staged)
  {
    if user in queues || staged.Some? then queues[user := StartQueue(staged)] else queues
  }

  /** The replies of `button_handler` for a routed payload. */
  function ButtonReplies(action: Action, staged: Option<Staged>, fails: Option<nat>): seq<Reply>
  {
    match action
    case MainMenu => [Say(ChooseOption)]
    case ConvertMenu => [Say(SelectOutputFormat)]
    case AudioMenu => [Say(SelectAudioFormat)]
    case Convert(format) => ConversionReplies(staged, format, fails)
    case ExtractAudio(format) => ExtractionReplies(staged, format, fails)
    case StartMerge => [Say(MergeQueue(|StartQueue(staged)|))]
    case StartAvMerge => [Say(SendAudioToMerge)]
    case StartSplit => [Say(SendSplitTimes)]
    case StartRename => [Say(SendNewName)]
    case NoAction => []
  }

  /** The states after `button_handler`: only the four "start" buttons set
      one. */
  function StatesAfterButton(states: map<int, string>, user: int, action: Action): map<int, string>
  {
    match StateSetBy(action)
    case Some(state) => states[user := state]
    case None => states
  }

  /** The replies of `handle_text` in the state it found. */
  function TextReplies(state: string, staged: Option<Staged>, text: string, numeric: string -> bool, fails: Option<nat>): seq<Reply>
  {
    if state == AwaitingSplitTimes then
      match SplitTimes(text, numeric)
      case None => [Say(InvalidSplitTimes)]
      case Some(_) => SplitReplies(staged, fails)
    else if state == AwaitingNewName then RenameReplies(staged, text, fails)
    else []
  }

  /** A text answers a question only in the two text-awaiting states: in
      the merge and audio-merge states it is dropped. */
  lemma TextOutsideTextStates(state: string, staged: Option<Staged>, text: string, numeric: string -> bool, fails: Option<nat>)
    requires state != AwaitingSplitTimes && state != AwaitingNewName
    ensures TextReplies(state, staged, text, numeric, fails) == []
  {
  }

  /** A split is attempted only on exactly two numeric tokens. */
  lemma TextSplitNeedsTwoNumbers(staged: Option<Staged>, text: string, numeric: string -> bool, fails: Option<nat>)
    ensures var rs := TextReplies(AwaitingSplitTimes, staged, text, numeric, fails);
      rs == if SplitTimes(text, numeric).Some? then SplitReplies(staged, fails) else [Say(InvalidSplitTimes)]
    ensures Delivered(TextReplies(AwaitingSplitTimes, staged, text, numeric, fails)) ==>
      |Text.WhitespaceSplit(text)| == 2 && staged.Some?
  {
    SplitOutcome(staged, fails);
    SayNotDelivered(InvalidSplitTimes);
  }

  /** The payloads of the merge keyboard do nothing at all. */
  lemma MergeKeyboardInert(states: map<int, string>, user: int, staged: Option<Staged>, fails: Option<nat>)
    ensures ButtonReplies(Route("process_merge"), staged, fails) == []
    ensures ButtonReplies(Route("add_more_merge"), staged, fails) == []
    ensures StatesAfterButton(states, user, Route("process_merge")) == states
    ensures StatesAfterButton(states, user, Route("add_more_merge")) == states
  {
    RouteMergeKeyboard();
  }

  // ---------------------------------------------------------------------------
  // The handlers

  class Handlers {
    /** `context.user_data`, per user. */
    var userData: map<int, Staged>
    /** The process-wide `user_manager`. */
    const manager: UserManager

    constructor (manager: UserManager)
      ensures this.manager == manager && userData == map[]
    {
      this.manager := manager;
      userData := map[];
    }

    /** The staged file of `user`, if any. */
    function Staging(user: int): (staged: Option<Staged>)
      reads this
      ensures staged.Some? <==> user in userData
      ensures staged.Some? ==> staged.value == userData[user]
    {
      if user in userData then Some(userData[user]) else None
    }

    /** `handle_video`: stages the video as temp_files/<user>_<id>.mp4,
        replacing any staged file; the user manager is not consulted. */
    method HandleVideo(user: int, fileId: string) returns (replies: seq<Reply>)
      modifies this`userData
      ensures userData == old(userData)[user := Staged(VideoPath(user, fileId), Video)]
      ensures manager.userStates == old(manager.userStates) && manager.userQueues == old(manager.userQueues)
      ensures replies == [Say(VideoReceived)]
    {
      userData := userData[user := Staged(VideoPath(user, fileId), Video)];
      replies := [Say(VideoReceived)];
    }

    /** `handle_document`: a supported document is staged under its
        lower-cased extension, replacing any staged file; an unsupported one
        is refused and leaves the staged file as it was. A document without
        a file name makes `splitext` raise: nothing is staged and nothing is
        answered. The user manager is not consulted in any case. */
    method HandleDocument(user: int, fileId: string, fileName: Option<string>) returns (replies: seq<Reply>)
      modifies this`userData
      ensures fileName.None? ==> userData == old(userData) && replies == []
      ensures fileName.Some? && Classify(fileName.value).None? ==>
        userData == old(userData) && replies == [Say(UnsupportedFormat)]
      ensures fileName.Some? && Classify(fileName.value).Some? ==>
        && userData == old(userData)[user := Staged(DocumentPath(user, fileId, FileExt(fileName.value)), Classify(fileName.value).value)]
        && replies == [Say(FileReceived(Classify(fileName.value).value))]
      ensures manager.userStates == old(manager.userStates) && manager.userQueues == old(manager.userQueues)
    {
      if fileName.None? {
        // `splitext(None)` raises before anything is staged or answered
        return [];
      }
      var name := fileName.value;
      var kind := Classify(name);
      if kind.None? {
        return [Say(UnsupportedFormat)];
      }
      var path := DocumentPath(user, fileId, FileExt(name));
      userData := userData[user := Staged(path, kind.value)];
      replies := [Say(FileReceived(kind.value))];
    }

    /** `process_conversion`. */
    method ProcessConversion(user: int, format: string, fails: Option<nat>) returns (replies: seq<Reply>)
      ensures replies == ConversionReplies(Staging(user), format, fails)
    {
      if user !in userData {
        return [Say(SendFileFirst)];
      }
      var reported, output := VideoProcessor.ConvertVideo(userData[user].path, format, true, fails);
      replies := [Say(StartingConversion)] + Progresses(reported);
      if output.Some? {
        replies := replies + [Deliver(AsDocument, output.value, Some("converted." + format))];
      } else {
        replies := replies + [Say(ConversionFailed)];
      }
    }

    /** `process_audio_extraction`. */
    method ProcessAudioExtraction(user: int, format: string, fails: Option<nat>) returns (replies: seq<Reply>)
      ensures replies == ExtractionReplies(Staging(user), format, fails)
    {
      if user !in userData {
        return [Say(SendFileFirst)];
      }
      var reported, output := VideoProcessor.VideoToAudio(userData[user].path, format, true, fails);
      replies := [Say(ExtractingAudio)] + Progresses(reported);
      if output.Some? {
        replies := replies + [Deliver(AsAudio, output.value, Some("audio." + format))];
      } else {
        replies := replies + [Say(ExtractionFailed)];
      }
    }

    /** `start_merge_process`: the user now awaits merge files, and the
        queue holds the staged file alone, or nothing; the count shown is
        therefore 0 or 1. */
    method StartMergeProcess(user: int) returns (replies: seq<Reply>)
      modifies manager`userStates, manager`userQueues
      ensures manager.userStates == old(manager.userStates)[user := AwaitingMergeFiles]
      ensures manager.userQueues == QueuesAfterMergeStart(old(manager.userQueues), user, Staging(user))
      ensures manager.GetQueue(user) == StartQueue(Staging(user))
      ensures replies == [Say(MergeQueue(|StartQueue(Staging(user))|))]
      ensures replies[0].notice.count <= 1
    {
      manager.SetUserState(user, AwaitingMergeFiles);
      manager.ClearQueue(user);
      if user in userData {
        var task := Task(userData[user].path, userData[user].kind);
        ghost var cleared := manager.userQueues;
        manager.AddToQueue(user, task);
        assert [] + [task] == StartQueue(Staging(user));
        assert manager.userQueues == cleared[user := StartQueue(Staging(user))];
      }
      var count := |manager.GetQueue(user)|;
      replies := [Say(MergeQueue(count))];
    }

    /** `start_av_merge_process`. */
    method StartAvMergeProcess(user: int) returns (replies: seq<Reply>)
      modifies manager`userStates
      ensures manager.userStates == old(manager.userStates)[user := AwaitingAudioMerge]
      ensures replies == [Say(SendAudioToMerge)]
    {
      replies := [Say(SendAudioToMerge)];
      manager.SetUserState(user, AwaitingAudioMerge);
    }

    /** `start_split_process`. */
    method StartSplitProcess(user: int) returns (replies: seq<Reply>)
      modifies manager`userStates
      ensures manager.userStates == old(manager.userStates)[user := AwaitingSplitTimes]
      ensures replies == [Say(SendSplitTimes)]
    {
      replies := [Say(SendSplitTimes)];
      manager.SetUserState(user, AwaitingSplitTimes);
    }

    /** `start_rename_process`. */
    method StartRenameProcess(user: int) returns (replies: seq<Reply>)
      modifies manager`userStates
      ensures manager.userStates == old(manager.userStates)[user := AwaitingNewName]
      ensures replies == [Say(SendNewName)]
    {
      replies := [Say(SendNewName)];
      manager.SetUserState(user, AwaitingNewName);
    }

    /** The branches of `button_handler`, once the payload is routed: only
        merge start touches the queues, only the four "start" buttons the
        state, and no button the staged file. */
    method Dispatch(user: int, action: Action, fails: Option<nat>) returns (replies: seq<Reply>)
      modifies manager`userStates, manager`userQueues
      ensures replies == ButtonReplies(action, Staging(user), fails)
      ensures manager.userStates == StatesAfterButton(old(manager.userStates), user, action)
      ensures manager.userQueues ==
        if action == StartMerge then QueuesAfterMergeStart(old(manager.userQueues), user, Staging(user))
        else old(manager.userQueues)
    {
      match action
      case MainMenu => replies := [Say(ChooseOption)];
      case ConvertMenu => replies := [Say(SelectOutputFormat)];
      case AudioMenu => replies := [Say(SelectAudioFormat)];
      case Convert(format) => replies := ProcessConversion(user, format, fails);
      case ExtractAudio(format) => replies := ProcessAudioExtraction(user, format, fails);
      case StartMerge => replies := StartMergeProcess(user);
      case StartAvMerge => replies := StartAvMergeProcess(user);
      case StartSplit => replies := StartSplitProcess(user);
      case StartRename => replies := StartRenameProcess(user);
      case NoAction => replies := [];
    }

    /** `button_handler`: the branch the payload routes to. */
    method ButtonHandler(user: int, data: string, fails: Option<nat>) returns (replies: seq<Reply>)
      modifies manager`userStates, manager`userQueues
      ensures replies == ButtonReplies(Route(data), Staging(user), fails)
      ensures manager.userStates == StatesAfterButton(old(manager.userStates), user, Route(data))
      ensures manager.userQueues ==
        if Route(data) == StartMerge then QueuesAfterMergeStart(old(manager.userQueues), user, Staging(user))
        else old(manager.userQueues)
    {
      replies := Dispatch(user, Route(data), fails);
    }

    /** `process_video_split`; the two times go to the processor as read. */
    method ProcessVideoSplit(user: int, startTime: string, endTime: string, fails: Option<nat>) returns (replies: seq<Reply>)
      ensures replies == SplitReplies(Staging(user), fails)
    {
      if user !in userData {
        return [Say(SplittingVideo), Say(SplitFailed)];
      }
      var reported, output := VideoProcessor.SplitVideo(userData[user].path, startTime, endTime, true, fails);
      replies := [Say(SplittingVideo)] + Progresses(reported);
      if output.Some? {
        replies := replies + [Deliver(AsVideo, output.value, None), DeleteStatus];
      } else {
        replies := replies + [Say(SplitFailed)];
      }
    }

    /** `process_rename`. */
    method ProcessRename(user: int, newName: string, fails: Option<nat>) returns (replies: seq<Reply>)
      ensures replies == RenameReplies(Staging(user), newName, fails)
    {
      if user !in userData {
        return [Say(RenameFailed)];
      }
      var output := VideoProcessor.RenameFile(userData[user].path, newName, fails);
      if output.None? {
        return [Say(RenameFailed)];
      }
      var channel := if userData[user].kind == Video then AsVideo else AsDocument;
      replies := [Deliver(channel, output.value, Some(newName))];
    }

    /** `handle_text`: answers the question the state asks, then puts the
        user back to idle, whatever the state was and whether or not the
        text parsed; the queues are left alone. */
    method HandleText(user: int, text: string, numeric: string -> bool, fails: Option<nat>) returns (replies: seq<Reply>)
      modifies manager`userStates
      ensures replies == TextReplies(old(manager.GetUserState(user)), Staging(user), text, numeric, fails)
      ensures manager.userStates == old(manager.userStates)[user := Idle]
      ensures manager.GetUserState(user) == Idle
    {
      var state := manager.GetUserState(user);
      if state == AwaitingSplitTimes {
        var times := SplitTimes(text, numeric);
        if times.Some? {
          replies := ProcessVideoSplit(user, times.value.0, times.value.1, fails);
        } else {
          replies := [Say(InvalidSplitTimes)];
        }
      } else if state == AwaitingNewName {
        replies := ProcessRename(user, text, fails);
      } else {
        replies := [];
      }
      manager.SetUserState(user, Idle);
    }
  }

  // ---------------------------------------------------------------------------
  // Conversations

  /** An upload while awaiting merge files replaces the staged file but
      does not enter the queue: the queue still holds the first video only.
      `merge` is a payload of the merge button, such as "merge_menu"
      (`RouteStartButtons`). */
  method UploadDuringMerge(user: int, firstId: string, secondId: string, merge: string)
    returns (queue: seq<Task>, staged: Staged, state: string)
    requires Route(merge) == StartMerge
    ensures queue == [Task(VideoPath(user, firstId), Video)]
    ensures staged == Staged(VideoPath(user, secondId), Video)
    ensures state == AwaitingMergeFiles
  {
    var manager := new UserManager();
    var bot := new Handlers(manager);
    var _ := bot.HandleVideo(user, firstId);
    var _ := bot.ButtonHandler(user, merge, None);
    var _ := bot.HandleVideo(user, secondId);
    queue := manager.GetQueue(user);
    staged := bot.userData[user];
    state := manager.GetUserState(user);
  }

  /** The merge keyboard's buttons leave the user waiting with the same
      queue; any text then ends merge mode without answering and without
      clearing the queue. `pressed` is a payload that routes nowhere, such
      as "process_merge" or "add_more_merge" (`RouteMergeKeyboard`). */
  method MergeModeEnds(user: int, fileId: string, merge: string, pressed: string, text: string, numeric: string -> bool)
    returns (waiting: string, answers: seq<Reply>, state: string, queue: seq<Task>)
    requires Route(merge) == StartMerge && Route(pressed) == NoAction
    ensures waiting == AwaitingMergeFiles
    ensures answers == []
    ensures state == Idle
    ensures queue == [Task(VideoPath(user, fileId), Video)]
  {
    var manager := new UserManager();
    var bot := new Handlers(manager);
    var _ := bot.HandleVideo(user, fileId);
    var _ := bot.ButtonHandler(user, merge, None);
    var nothing := bot.ButtonHandler(user, pressed, None);
    waiting := manager.GetUserState(user);
    var said := bot.HandleText(user, text, numeric, None);
    answers := nothing + said;
    state := manager.GetUserState(user);
    queue := manager.GetQueue(user);
  }

  /** Split from the menu: a staged video, the split button (`split`, such
      as "split_menu") and the reply "a b" with two numbers deliver the
      split video when no toolkit call raises, and leave the user idle. */
  method SplitConversation(user: int, fileId: string, split: string, start: string, sep: char, end: string, numeric: string -> bool)
    returns (replies: seq<Reply>, state: string)
    requires Route(split) == StartSplit
    requires start != [] && Text.NoSpace(start) && end != [] && Text.NoSpace(end) && Text.IsSpace(sep)
    requires numeric(start) && numeric(end)
    ensures Delivered(replies)
    ensures state == Idle
  {
    var manager := new UserManager();
    var bot := new Handlers(manager);
    var _ := bot.HandleVideo(user, fileId);
    var _ := bot.ButtonHandler(user, split, None);
    ghost var staged := bot.Staging(user);
    assert staged.Some? && manager.GetUserState(user) == AwaitingSplitTimes;
    var text := start + [sep] + end;
    SplitTimesOfTwoWords(start, sep, end, numeric);
    replies := bot.HandleText(user, text, numeric, None);
    assert replies == SplitReplies(staged, None);
    SplitOutcome(staged, None);
    state := manager.GetUserState(user);
  }
}
