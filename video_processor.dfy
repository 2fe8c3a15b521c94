/** video_processor.py: where each `VideoProcessor` method writes its output
    and which progress values it hands to its callback. Every call into the
    media toolkit is one opaque step that either returns or raises. */
module VideoProcessor {
  import opened Wrappers
  import opened Config
  import opened Text
  import opened Paths

  // ---------------------------------------------------------------------------
  // Output paths

  /** `convert_video`: TEMP_DIR/converted_<stem>.<format>, the stem being the
      basename's text before its first '.'. */
  function ConvertedPath(inputPath: string, outputFormat: string): string
  {
    Join(TempDir, "converted_" + FirstDotStem(Basename(inputPath)) + "." + outputFormat)
  }

  /** `video_to_audio`: TEMP_DIR/audio_<stem>.<format>, same stem. */
  function AudioPath(inputPath: string, audioFormat: string): string
  {
    Join(TempDir, "audio_" + FirstDotStem(Basename(inputPath)) + "." + audioFormat)
  }

  /** `split_video`: TEMP_DIR/split_<basename>. */
  function SplitPath(inputPath: string): string
  {
    Join(TempDir, "split_" + Basename(inputPath))
  }

  /** `merge_video_audio`: TEMP_DIR/merged_av_<basename of the video>. */
  function MergedAvPath(videoPath: string): string
  {
    Join(TempDir, "merged_av_" + Basename(videoPath))
  }

  /** `merge_videos`: one fixed file, whatever the inputs. */
  function MergedVideoPath(): string
  {
    Join(TempDir, "merged_video.mp4")
  }

  /** `rename_file`: TEMP_DIR joined with the name as given. */
  function RenamedPath(newName: string): string
  {
    Join(TempDir, newName)
  }

  lemma NoSlashConcat(a: string, b: string)
    requires '/' !in a && '/' !in b
    ensures '/' !in a + b
  {
    assert forall i :: 0 <= i < |a + b| ==> (a + b)[i] in a || (a + b)[i] in b;
  }

  /** A relative name is placed under TEMP_DIR with one '/' between. */
  lemma InTempDir(name: string)
    requires name == [] || name[0] != '/'
    ensures Join(TempDir, name) == TempDir + "/" + name
    ensures TempDir + "/" <= Join(TempDir, name)
  {
    assert TempDir[|TempDir| - 1] == 's';
  }

  /** A plain file name joined onto TEMP_DIR lies directly in it and keeps
      its name. */
  lemma PlacedInTempDir(name: string)
    requires '/' !in name
    ensures Basename(Join(TempDir, name)) == name
    ensures TempDir + "/" <= Join(TempDir, name)
  {
    JoinBasename(TempDir, name);
    if name != [] {
      assert name[0] in name;
    }
    InTempDir(name);
  }

  /** The stem before the first '.' of a basename has no '/' either. */
  lemma StemNoSlash(inputPath: string)
    ensures '/' !in FirstDotStem(Basename(inputPath))
  {
    var b := Basename(inputPath);
    var stem := FirstDotStem(b);
    assert forall i :: 0 <= i < |stem| ==> stem[i] == b[i];
  }

  /** `<prefix><stem>.<format>` has no '/' when its parts have none. */
  lemma DottedNameNoSlash(prefix: string, stem: string, format: string)
    requires '/' !in prefix && '/' !in stem && '/' !in format
    ensures '/' !in prefix + stem + "." + format
  {
    NoSlashConcat(prefix, stem);
    NoSlashConcat(prefix + stem, ".");
    NoSlashConcat(prefix + stem + ".", format);
  }

  /** The converted file lies directly in TEMP_DIR and is named
      converted_<stem>.<format>, where the stem has no '.' and is a prefix of
      the input's basename. */
  lemma ConvertedPathShape(inputPath: string, outputFormat: string)
    requires '/' !in outputFormat
    ensures var stem := FirstDotStem(Basename(inputPath));
      && TempDir + "/" <= ConvertedPath(inputPath, outputFormat)
      && Basename(ConvertedPath(inputPath, outputFormat)) == "converted_" + stem + "." + outputFormat
      && '.' !in stem && stem <= Basename(inputPath)
  {
    var stem := FirstDotStem(Basename(inputPath));
    StemNoSlash(inputPath);
    DottedNameNoSlash("converted_", stem, outputFormat);
    PlacedInTempDir("converted_" + stem + "." + outputFormat);
  }

  /** Two inputs whose basenames agree up to the first '.' are converted to
      the same file ("clip.a.mp4" and "clip.b.mov" both give converted_clip). */
  lemma ConvertedPathSharedStem(a: string, b: string, outputFormat: string)
    requires FirstDotStem(Basename(a)) == FirstDotStem(Basename(b))
    ensures ConvertedPath(a, outputFormat) == ConvertedPath(b, outputFormat)
    ensures AudioPath(a, outputFormat) == AudioPath(b, outputFormat)
  {
  }

  /** The extracted audio lies directly in TEMP_DIR and is named
      audio_<stem>.<format>. */
  lemma AudioPathShape(inputPath: string, audioFormat: string)
    requires '/' !in audioFormat
    ensures TempDir + "/" <= AudioPath(inputPath, audioFormat)
    ensures Basename(AudioPath(inputPath, audioFormat)) == "audio_" + FirstDotStem(Basename(inputPath)) + "." + audioFormat
  {
    var stem := FirstDotStem(Basename(inputPath));
    StemNoSlash(inputPath);
    DottedNameNoSlash("audio_", stem, audioFormat);
    PlacedInTempDir("audio_" + stem + "." + audioFormat);
  }

  /** The split output keeps the whole input basename after "split_", in
      TEMP_DIR. */
  lemma SplitPathShape(inputPath: string)
    ensures Basename(SplitPath(inputPath)) == "split_" + Basename(inputPath)
    ensures TempDir + "/" <= SplitPath(inputPath)
  {
    NoSlashConcat("split_", Basename(inputPath));
    PlacedInTempDir("split_" + Basename(inputPath));
  }

  /** The audio-merged output keeps the whole video basename after
      "merged_av_", in TEMP_DIR. */
  lemma MergedAvPathShape(videoPath: string)
    ensures Basename(MergedAvPath(videoPath)) == "merged_av_" + Basename(videoPath)
    ensures TempDir + "/" <= MergedAvPath(videoPath)
  {
    NoSlashConcat("merged_av_", Basename(videoPath));
    PlacedInTempDir("merged_av_" + Basename(videoPath));
  }

  /** A renamed copy is written to TEMP_DIR under exactly the given name when
      that name is a plain file name; an absolute name escapes TEMP_DIR. */
  lemma RenamedPathShape(newName: string)
    ensures '/' !in newName ==> Basename(RenamedPath(newName)) == newName && TempDir + "/" <= RenamedPath(newName)
    ensures newName != [] && newName[0] == '/' ==> RenamedPath(newName) == newName
  {
    if '/' !in newName {
      PlacedInTempDir(newName);
    }
  }

  // ---------------------------------------------------------------------------
  // Progress schedules

  /** What a method does, step by step: hand a percentage to the callback,
      call the toolkit, or return. */
  datatype Plan = Done | Report(percent: int, next: Plan) | Call(next: Plan)

  /** What happened when a method ran: the percentages the callback received,
      and whether every toolkit call returned. */
  datatype Trace = Trace(reported: seq<int>, completed: bool)

  /** The toolkit raises on call number `k` (counted from 0 within one method). */
  predicate Raises(fails: Option<nat>, k: nat)
  {
    fails == Some(k)
  }

  /** Plan `a`, then plan `b`. */
  function Then(a: Plan, b: Plan): Plan
  {
    match a
    case Done => b
    case Report(p, next) => Report(p, Then(next, b))
    case Call(next) => Call(Then(next, b))
  }

  /** The percentages a plan reports when nothing fails. */
  function Percents(plan: Plan): seq<int>
  {
    match plan
    case Done => []
    case Report(p, next) => [p] + Percents(next)
    case Call(next) => Percents(next)
  }

  /** The number of toolkit calls in a plan. */
  function Calls(plan: Plan): nat
  {
    match plan
    case Done => 0
    case Report(_, next) => Calls(next)
    case Call(next) => 1 + Calls(next)
  }

  /** Runs `plan` with `made` toolkit calls already made: with no callback
      nothing is reported, and a raising call ends the run at once. */
  function Run(plan: Plan, callback: bool, fails: Option<nat>, made: nat): Trace
  {
    match plan
    case Done => Trace([], true)
    case Report(p, next) =>
      var rest := Run(next, callback, fails, made);
      Trace((if callback then [p] else []) + rest.reported, rest.completed)
    case Call(next) =>
      if Raises(fails, made) then Trace([], false) else Run(next, callback, fails, made + 1)
  }

  lemma {:induction false} ThenAssociative(a: Plan, b: Plan, c: Plan)
    ensures Then(Then(a, b), c) == Then(a, Then(b, c))
  {
    match a
    case Done =>
    case Report(_, next) => ThenAssociative(next, b, c);
    case Call(next) => ThenAssociative(next, b, c);
  }

  lemma {:induction false} PercentsThen(a: Plan, b: Plan)
    ensures Percents(Then(a, b)) == Percents(a) + Percents(b)
  {
    match a
    case Done =>
    case Report(p, next) => PercentsThen(next, b);
    case Call(next) => PercentsThen(next, b);
  }

  lemma {:induction false} CallsThen(a: Plan, b: Plan)
    ensures Calls(Then(a, b)) == Calls(a) + Calls(b)
  {
    match a
    case Done =>
    case Report(_, next) => CallsThen(next, b);
    case Call(next) => CallsThen(next, b);
  }

  /** `a` and then `b` run as `a` followed, if it completed, by `b` with
      the call numbers shifted by `a`'s calls. */
  predicate RunsInSequence(a: Plan, b: Plan, callback: bool, fails: Option<nat>, made: nat)
  {
    var first := Run(a, callback, fails, made);
    var second := Run(b, callback, fails, made + Calls(a));
    Run(Then(a, b), callback, fails, made) ==
      if first.completed then Trace(first.reported + second.reported, second.completed) else first
  }

  lemma RunsInSequenceReport(p: int, next: Plan, b: Plan, callback: bool, fails: Option<nat>, made: nat)
    requires RunsInSequence(next, b, callback, fails, made)
    ensures RunsInSequence(Report(p, next), b, callback, fails, made)
  {
    var head := if callback then [p] else [];
    var first := Run(next, callback, fails, made);
    if first.completed {
      var second := Run(b, callback, fails, made + Calls(next));
      assert head + (first.reported + second.reported) == (head + first.reported) + second.reported;
    }
  }

  lemma RunsInSequenceCall(next: Plan, b: Plan, callback: bool, fails: Option<nat>, made: nat)
    requires !Raises(fails, made) ==> RunsInSequence(next, b, callback, fails, made + 1)
    ensures RunsInSequence(Call(next), b, callback, fails, made)
  {
  }

  /** Running two plans one after the other: the second runs only if the
      first completed, its calls numbered after the first's. */
  lemma {:induction false} RunThen(a: Plan, b: Plan, callback: bool, fails: Option<nat>, made: nat)
    ensures RunsInSequence(a, b, callback, fails, made)
  {
    match a
    case Done =>
    case Report(p, next) =>
      RunThen(next, b, callback, fails, made);
      RunsInSequenceReport(p, next, b, callback, fails, made);
    case Call(next) =>
      if !Raises(fails, made) {
        RunThen(next, b, callback, fails, made + 1);
      }
      RunsInSequenceCall(next, b, callback, fails, made);
  }

  /** What a run reports is a prefix of the plan's percentages (nothing
      without a callback), all of them when it completes; it completes
      exactly when none of its own calls raises. */
  lemma {:induction false} RunReportsPrefix(plan: Plan, callback: bool, fails: Option<nat>, made: nat)
    ensures var t := Run(plan, callback, fails, made);
      && t.reported <= (if callback then Percents(plan) else [])
      && (t.completed ==> t.reported == (if callback then Percents(plan) else []))
      && (t.completed <==> !(fails.Some? && made <= fails.value < made + Calls(plan)))
  {
    match plan
    case Done =>
    case Report(p, next) =>
      RunReportsPrefix(next, callback, fails, made);
      var rest := Run(next, callback, fails, made);
      var all := if callback then Percents(next) else [];
      assert rest.reported <= all;
      assert (if callback then [p] else []) + rest.reported <= (if callback then [p] else []) + all;
    case Call(next) =>
      RunReportsPrefix(next, callback, fails, made + 1);
  }

  predicate Sorted(s: seq<int>)
  {
    forall i, j :: 0 <= i <= j < |s| ==> s[i] <= s[j]
  }

  /** The shape of every VideoProcessor schedule: percentages that never
      go below `floor` nor decrease, stay below 100, and a final report of
      exactly 100 as the last step. */
  predicate ScheduleFrom(plan: Plan, floor: int)
  {
    match plan
    case Done => false
    case Report(p, next) =>
      if next == Done then p == 100 && floor <= 100 else floor <= p < 100 && ScheduleFrom(next, p)
    case Call(next) => ScheduleFrom(next, floor)
  }

  predicate IsSchedule(plan: Plan)
  {
    ScheduleFrom(plan, 0)
  }

  lemma {:induction false} ScheduleFromWeaken(plan: Plan, low: int, high: int)
    requires low <= high && ScheduleFrom(plan, high)
    ensures ScheduleFrom(plan, low)
  {
    match plan
    case Report(p, next) =>
    case Call(next) => ScheduleFromWeaken(next, low, high);
  }

  /** Reporting `p` before reports that are at least `p` keeps them
      sorted and within [floor, 100]. */
  lemma PrependReport(p: int, floor: int, callback: bool, rest: seq<int>)
    requires floor <= p < 100
    requires Sorted(rest) && forall i :: 0 <= i < |rest| ==> p <= rest[i] <= 100
    ensures var r := (if callback then [p] else []) + rest;
      && Sorted(r)
      && (forall i :: 0 <= i < |r| ==> floor <= r[i] <= 100)
      && (100 in r <==> 100 in rest)
  {
    var r := (if callback then [p] else []) + rest;
    assert forall i :: 0 <= i < |r| ==> (callback && i == 0 && r[i] == p) || r[i] == rest[i - |r| + |rest|];
  }

  /** What the callback sees from a run of a schedule: percentages in
      [floor, 100], never decreasing, and 100 among them exactly when there
      is a callback and every toolkit call returned. */
  lemma {:induction false} ScheduleRun(plan: Plan, floor: int, callback: bool, fails: Option<nat>, made: nat)
    requires ScheduleFrom(plan, floor)
    ensures var t := Run(plan, callback, fails, made);
      && Sorted(t.reported)
      && (forall i :: 0 <= i < |t.reported| ==> floor <= t.reported[i] <= 100)
      && (100 in t.reported <==> callback && t.completed)
  {
    match plan
    case Report(p, next) =>
      if next != Done {
        ScheduleRun(next, p, callback, fails, made);
        PrependReport(p, floor, callback, Run(next, callback, fails, made).reported);
      }
    case Call(next) =>
      if !Raises(fails, made) {
        ScheduleRun(next, floor, callback, fails, made + 1);
      }
  }

  /** What the callback of a VideoProcessor method sees: percentages in
      [0, 100], never decreasing; 100 exactly when there is a callback and
      every toolkit call returned; nothing without a callback; the whole
      schedule when nothing raised. */
  lemma ScheduleGuarantees(plan: Plan, callback: bool, fails: Option<nat>)
    requires IsSchedule(plan)
    ensures var t := Run(plan, callback, fails, 0);
      && Sorted(t.reported)
      && (forall i :: 0 <= i < |t.reported| ==> 0 <= t.reported[i] <= 100)
      && (100 in t.reported <==> callback && t.completed)
      && (t.completed <==> fails.None? || fails.value >= Calls(plan))
      && (!callback ==> t.reported == [])
      && (t.completed ==> t.reported == if callback then Percents(plan) else [])
  {
    ScheduleRun(plan, 0, callback, fails, 0);
    RunReportsPrefix(plan, callback, fails, 0);
  }

  /** The last step of every plan below. */
  const Final: Plan := Report(100, Done)

  lemma RunFinal(callback: bool, fails: Option<nat>, made: nat)
    ensures Run(Final, callback, fails, made) == Trace(if callback then [100] else [], true)
  {
  }

  /** convert_video: 10, VideoFileClip (call 0), write_videofile and close
      (call 1), 100. */
  function ConvertPlan(): Plan
  {
    Report(10, Call(Call(Final)))
  }

  /** video_to_audio: 20, VideoFileClip and its audio (call 0), 60,
      write_audiofile and the closes (call 1), 100. */
  function VideoToAudioPlan(): Plan
  {
    Report(20, Call(Report(60, Call(Final))))
  }

  /** split_video: 20, VideoFileClip (call 0), 50, subclip (call 1),
      write_videofile and the closes (call 2), 100. */
  function SplitPlan(): Plan
  {
    Report(20, Call(Report(50, Call(Call(Final)))))
  }

  /** merge_video_audio: 20, VideoFileClip (call 0), AudioFileClip (call 1),
      60, set_audio (call 2), write_videofile and the closes (call 3), 100. */
  function MergeAvPlan(): Plan
  {
    Report(20, Call(Call(Report(60, Call(Call(Final))))))
  }

  /** The value reported before opening file `i` of `n`:
      `10 + (i * 30 // len(video_paths))`. */
  function FilePercent(i: nat, n: nat): int
    requires i < n
  {
    10 + i * 30 / n
  }

  /** The loop of merge_videos over files lo..hi-1: for each, report, then
      VideoFileClip. */
  function Loads(n: nat, lo: nat, hi: nat): Plan
    requires lo <= hi <= n
    decreases hi - lo
  {
    if lo == hi then Done else Report(FilePercent(lo, n), Call(Loads(n, lo + 1, hi)))
  }

  /** What merge_videos does after its loop: 70, concatenate_videoclips
      (call n), write_videofile and the closes (call n + 1), 100. */
  function MergeTail(): Plan
  {
    Report(70, Call(Call(Final)))
  }

  /** merge_videos over `n` files: 10, the loop, then the tail. */
  function MergePlan(n: nat): Plan
  {
    Report(10, Then(Loads(n, 0, n), MergeTail()))
  }

  lemma {:induction false} LoadsSnoc(n: nat, lo: nat, hi: nat)
    requires lo <= hi < n
    ensures Loads(n, lo, hi + 1) == Then(Loads(n, lo, hi), Report(FilePercent(hi, n), Call(Done)))
    decreases hi - lo
  {
    if lo < hi {
      LoadsSnoc(n, lo + 1, hi);
    }
  }

  lemma {:induction false} LoadsSplit(n: nat, lo: nat, mid: nat, hi: nat)
    requires lo <= mid <= hi <= n
    ensures Loads(n, lo, hi) == Then(Loads(n, lo, mid), Loads(n, mid, hi))
    decreases mid - lo
  {
    if lo < mid {
      LoadsSplit(n, lo + 1, mid, hi);
    }
  }

  lemma {:induction false} LoadsCounts(n: nat, lo: nat, hi: nat)
    requires lo <= hi <= n
    ensures Calls(Loads(n, lo, hi)) == hi - lo
    ensures Percents(Loads(n, lo, hi)) == seq(hi - lo, i requires 0 <= i < hi - lo => FilePercent(lo + i, n))
    decreases hi - lo
  {
    if lo < hi {
      LoadsCounts(n, lo + 1, hi);
    }
  }

  lemma MulCancel(n: int, a: int, b: int)
    requires n > 0 && n * a < n * b
    ensures a < b
  {
  }

  lemma DivMonotone(x: nat, y: nat, n: nat)
    requires x <= y && n > 0
    ensures x / n <= y / n
  {
    var qx, qy := x / n, y / n;
    assert n * qx + x % n == x;
    assert n * qy + y % n == y;
    assert n * qx < n * (qy + 1);
    MulCancel(n, qx, qy + 1);
  }

  lemma DivBelow(x: nat, n: nat, k: nat)
    requires n > 0 && x < n * k
    ensures x / n < k
  {
    var q := x / n;
    assert n * q + x % n == x;
    MulCancel(n, q, k);
  }

  /** Each per-file value lies in [10, 39]; later files never report less. */
  lemma FilePercentBounds(i: nat, j: nat, n: nat)
    requires i <= j < n
    ensures 10 <= FilePercent(i, n) <= FilePercent(j, n) <= 39
  {
    DivMonotone(i * 30, j * 30, n);
    DivBelow(j * 30, n, 30);
  }

  lemma {:induction false} LoadsSchedule(n: nat, lo: nat, floor: int, tail: Plan)
    requires lo <= n && floor <= 39 && ScheduleFrom(tail, 39)
    requires lo < n ==> floor <= FilePercent(lo, n)
    ensures ScheduleFrom(Then(Loads(n, lo, n), tail), floor)
    decreases n - lo
  {
    if lo == n {
      ScheduleFromWeaken(tail, floor, 39);
    } else {
      FilePercentBounds(lo, lo, n);
      if lo + 1 < n {
        FilePercentBounds(lo, lo + 1, n);
      }
      LoadsSchedule(n, lo + 1, FilePercent(lo, n), tail);
    }
  }

  /** merge_videos reports 10, then 10 + (i * 30) // n for each file i (each
      in [10, 39]), then 70, then 100: a schedule with n + 2 toolkit calls.
      With no files the loop contributes nothing and divides by nothing. */
  lemma MergeSchedule(n: nat)
    ensures Percents(MergePlan(n)) == [10] + seq(n, i requires 0 <= i < n => FilePercent(i, n)) + [70, 100]
    ensures forall i :: 0 <= i < n ==> 10 <= FilePercent(i, n) <= 39
    ensures Calls(MergePlan(n)) == n + 2
    ensures IsSchedule(MergePlan(n))
  {
    LoadsCounts(n, 0, n);
    PercentsThen(Loads(n, 0, n), MergeTail());
    CallsThen(Loads(n, 0, n), MergeTail());
    forall i | 0 <= i < n
      ensures 10 <= FilePercent(i, n) <= 39
    {
      FilePercentBounds(i, i, n);
    }
    if n > 0 {
      FilePercentBounds(0, 0, n);
    }
    LoadsSchedule(n, 0, 10, MergeTail());
  }

  /** The fixed schedules of the other four methods, one lemma each. */
  lemma ConvertSchedule()
    ensures IsSchedule(ConvertPlan()) && Percents(ConvertPlan()) == [10, 100] && Calls(ConvertPlan()) == 2
  {
  }

  lemma VideoToAudioSchedule()
    ensures IsSchedule(VideoToAudioPlan()) && Percents(VideoToAudioPlan()) == [20, 60, 100] && Calls(VideoToAudioPlan()) == 2
  {
  }

  lemma SplitSchedule()
    ensures IsSchedule(SplitPlan()) && Percents(SplitPlan()) == [20, 50, 100] && Calls(SplitPlan()) == 3
  {
  }

  lemma MergeAvSchedule()
    ensures IsSchedule(MergeAvPlan()) && Percents(MergeAvPlan()) == [20, 60, 100] && Calls(MergeAvPlan()) == 4
  {
  }

  /** The percentages a callback sees: the given ones, or none without a
      callback. */
  function Shown(callback: bool, ps: seq<int>): seq<int>
  {
    if callback then ps else []
  }

  /** convert_video reports 10, then 100 only if both calls return. */
  lemma RunConvertPlan(callback: bool, fails: Option<nat>)
    ensures Run(ConvertPlan(), callback, fails, 0) ==
      if Raises(fails, 0) || Raises(fails, 1) then Trace(Shown(callback, [10]), false)
      else Trace(Shown(callback, [10]) + Shown(callback, [100]), true)
  {
    RunFinal(callback, fails, 2);
    assert Run(Call(Final), callback, fails, 1) == if Raises(fails, 1) then Trace([], false) else Run(Final, callback, fails, 2);
  }

  /** video_to_audio reports 20, then 60 once the video is open, then 100
      once the audio is written. */
  lemma RunVideoToAudioPlan(callback: bool, fails: Option<nat>)
    ensures Run(VideoToAudioPlan(), callback, fails, 0) ==
      if Raises(fails, 0) then Trace(Shown(callback, [20]), false)
      else if Raises(fails, 1) then Trace(Shown(callback, [20]) + Shown(callback, [60]), false)
      else Trace(Shown(callback, [20]) + Shown(callback, [60]) + Shown(callback, [100]), true)
  {
    var afterOpen := Report(60, Call(Final));
    RunFinal(callback, fails, 2);
    assert Run(Call(Final), callback, fails, 1) == if Raises(fails, 1) then Trace([], false) else Run(Final, callback, fails, 2);
    assert Run(afterOpen, callback, fails, 1).reported == Shown(callback, [60]) + Run(Call(Final), callback, fails, 1).reported;
    assert Run(Call(afterOpen), callback, fails, 0) == if Raises(fails, 0) then Trace([], false) else Run(afterOpen, callback, fails, 1);
  }

  /** split_video reports 20, then 50 once the video is open, then 100 once
      the cut and the write both return. */
  lemma RunSplitPlan(callback: bool, fails: Option<nat>)
    ensures Run(SplitPlan(), callback, fails, 0) ==
      if Raises(fails, 0) then Trace(Shown(callback, [20]), false)
      else if Raises(fails, 1) || Raises(fails, 2) then Trace(Shown(callback, [20]) + Shown(callback, [50]), false)
      else Trace(Shown(callback, [20]) + Shown(callback, [50]) + Shown(callback, [100]), true)
  {
    var afterOpen := Report(50, Call(Call(Final)));
    RunFinal(callback, fails, 3);
    assert Run(Call(Final), callback, fails, 2) == if Raises(fails, 2) then Trace([], false) else Run(Final, callback, fails, 3);
    assert Run(Call(Call(Final)), callback, fails, 1) == if Raises(fails, 1) then Trace([], false) else Run(Call(Final), callback, fails, 2);
    assert Run(afterOpen, callback, fails, 1).reported == Shown(callback, [50]) + Run(Call(Call(Final)), callback, fails, 1).reported;
    assert Run(Call(afterOpen), callback, fails, 0) == if Raises(fails, 0) then Trace([], false) else Run(afterOpen, callback, fails, 1);
  }

  /** merge_video_audio reports 20, then 60 once both files are open, then
      100 once the merge and the write both return. */
  lemma RunMergeAvPlan(callback: bool, fails: Option<nat>)
    ensures Run(MergeAvPlan(), callback, fails, 0) ==
      if Raises(fails, 0) || Raises(fails, 1) then Trace(Shown(callback, [20]), false)
      else if Raises(fails, 2) || Raises(fails, 3) then Trace(Shown(callback, [20]) + Shown(callback, [60]), false)
      else Trace(Shown(callback, [20]) + Shown(callback, [60]) + Shown(callback, [100]), true)
  {
    var afterOpen := Report(60, Call(Call(Final)));
    RunFinal(callback, fails, 4);
    assert Run(Call(Final), callback, fails, 3) == if Raises(fails, 3) then Trace([], false) else Run(Final, callback, fails, 4);
    assert Run(Call(Call(Final)), callback, fails, 2) == if Raises(fails, 2) then Trace([], false) else Run(Call(Final), callback, fails, 3);
    assert Run(afterOpen, callback, fails, 2).reported == Shown(callback, [60]) + Run(Call(Call(Final)), callback, fails, 2).reported;
    assert Run(Call(afterOpen), callback, fails, 1) == if Raises(fails, 1) then Trace([], false) else Run(afterOpen, callback, fails, 2);
    assert Run(Call(Call(afterOpen)), callback, fails, 0) == if Raises(fails, 0) then Trace([], false) else Run(Call(afterOpen), callback, fails, 1);
  }

  /** One turn of the merge_videos loop: report the file's value, then open
      it; if that raises, the whole method ends there. */
  lemma MergeLoopStep(n: nat, i: nat, callback: bool, fails: Option<nat>, reported: seq<int>)
    requires i < n
    requires Run(Report(10, Loads(n, 0, i)), callback, fails, 0) == Trace(reported, true)
    ensures Run(Report(10, Loads(n, 0, i + 1)), callback, fails, 0)
         == Trace(reported + Shown(callback, [FilePercent(i, n)]), !Raises(fails, i))
    ensures Raises(fails, i) ==>
      Run(MergePlan(n), callback, fails, 0) == Trace(reported + Shown(callback, [FilePercent(i, n)]), false)
  {
    var done := Report(10, Loads(n, 0, i));
    var step := Report(FilePercent(i, n), Call(Done));
    LoadsCounts(n, 0, i);
    LoadsSnoc(n, 0, i);
    RunThen(done, step, callback, fails, 0);
    assert Then(done, step) == Report(10, Loads(n, 0, i + 1));
    assert Calls(done) == i;
    assert Run(Call(Done), callback, fails, i) == Trace([], !Raises(fails, i));
    assert Run(step, callback, fails, i) == Trace(Shown(callback, [FilePercent(i, n)]), !Raises(fails, i));
    if Raises(fails, i) {
      LoadsSplit(n, 0, i + 1, n);
      ThenAssociative(Loads(n, 0, i + 1), Loads(n, i + 1, n), MergeTail());
      RunThen(Report(10, Loads(n, 0, i + 1)), Then(Loads(n, i + 1, n), MergeTail()), callback, fails, 0);
    }
  }

  /** After the merge_videos loop: 70, then the two calls, then 100. */
  lemma MergeAfterLoop(n: nat, callback: bool, fails: Option<nat>, reported: seq<int>)
    requires Run(Report(10, Loads(n, 0, n)), callback, fails, 0) == Trace(reported, true)
    ensures Run(MergePlan(n), callback, fails, 0) ==
      if Raises(fails, n) || Raises(fails, n + 1) then Trace(reported + Shown(callback, [70]), false)
      else Trace(reported + Shown(callback, [70]) + Shown(callback, [100]), true)
  {
    LoadsCounts(n, 0, n);
    RunThen(Report(10, Loads(n, 0, n)), MergeTail(), callback, fails, 0);
    RunFinal(callback, fails, n + 2);
    assert Run(Call(Final), callback, fails, n + 1) == if Raises(fails, n + 1) then Trace([], false) else Run(Final, callback, fails, n + 2);
    assert Run(Call(Call(Final)), callback, fails, n) == if Raises(fails, n) then Trace([], false) else Run(Call(Final), callback, fails, n + 1);
  }

  // ---------------------------------------------------------------------------
  // The methods

  /** `convert_video`; `fails` says which toolkit call raises, if any. */
  method ConvertVideo(inputPath: string, outputFormat: string, callback: bool, fails: Option<nat>)
    returns (reported: seq<int>, output: Option<string>)
    ensures Trace(reported, output.Some?) == Run(ConvertPlan(), callback, fails, 0)
    ensures output.Some? ==> output.value == ConvertedPath(inputPath, outputFormat)
  {
    RunConvertPlan(callback, fails);
    var outputPath := ConvertedPath(inputPath, outputFormat);
    reported := Shown(callback, [10]);
    if Raises(fails, 0) || Raises(fails, 1) {
      return reported, None;
    }
    reported := reported + Shown(callback, [100]);
    output := Some(outputPath);
  }

  /** `merge_videos`; `clips` are the paths opened, in order, and handed to
      the concatenation when it is reached. */
  method MergeVideos(videoPaths: seq<string>, callback: bool, fails: Option<nat>)
    returns (reported: seq<int>, clips: seq<string>, output: Option<string>)
    ensures Trace(reported, output.Some?) == Run(MergePlan(|videoPaths|), callback, fails, 0)
    ensures clips <= videoPaths
    ensures output.Some? ==> clips == videoPaths && output.value == MergedVideoPath()
  {
    var n := |videoPaths|;
    var outputPath := MergedVideoPath();
    reported := Shown(callback, [10]);
    clips := [];
    var i := 0;
    while i < n
      invariant 0 <= i <= n
      invariant clips == videoPaths[..i]
      invariant Run(Report(10, Loads(n, 0, i)), callback, fails, 0) == Trace(reported, true)
    {
      MergeLoopStep(n, i, callback, fails, reported);
      reported := reported + Shown(callback, [10 + (i * 30 / n)]);
      if Raises(fails, i) {
        return reported, clips, None;
      }
      clips := clips + [videoPaths[i]];
      i := i + 1;
    }
    MergeAfterLoop(n, callback, fails, reported);
    reported := reported + Shown(callback, [70]);
    if Raises(fails, n) || Raises(fails, n + 1) {
      return reported, clips, None;
    }
    reported := reported + Shown(callback, [100]);
    output := Some(outputPath);
  }

  /** `video_to_audio`. */
  method VideoToAudio(inputPath: string, audioFormat: string, callback: bool, fails: Option<nat>)
    returns (reported: seq<int>, output: Option<string>)
    ensures Trace(reported, output.Some?) == Run(VideoToAudioPlan(), callback, fails, 0)
    ensures output.Some? ==> output.value == AudioPath(inputPath, audioFormat)
  {
    RunVideoToAudioPlan(callback, fails);
    var outputPath := AudioPath(inputPath, audioFormat);
    reported := Shown(callback, [20]);
    if Raises(fails, 0) {
      return reported, None;
    }
    reported := reported + Shown(callback, [60]);
    if Raises(fails, 1) {
      return reported, None;
    }
    reported := reported + Shown(callback, [100]);
    output := Some(outputPath);
  }

  /** `split_video`; the times are handed to the toolkit unexamined. */
  method SplitVideo<Time>(inputPath: string, startTime: Time, endTime: Time, callback: bool, fails: Option<nat>)
    returns (reported: seq<int>, output: Option<string>)
    ensures Trace(reported, output.Some?) == Run(SplitPlan(), callback, fails, 0)
    ensures output.Some? ==> output.value == SplitPath(inputPath)
  {
    RunSplitPlan(callback, fails);
    var outputPath := SplitPath(inputPath);
    reported := Shown(callback, [20]);
    if Raises(fails, 0) {
      return reported, None;
    }
    reported := reported + Shown(callback, [50]);
    if Raises(fails, 1) || Raises(fails, 2) {
      return reported, None;
    }
    reported := reported + Shown(callback, [100]);
    output := Some(outputPath);
  }

  /** `merge_video_audio`; the audio path only reaches the toolkit. */
  method MergeVideoAudio(videoPath: string, audioPath: string, callback: bool, fails: Option<nat>)
    returns (reported: seq<int>, output: Option<string>)
    ensures Trace(reported, output.Some?) == Run(MergeAvPlan(), callback, fails, 0)
    ensures output.Some? ==> output.value == MergedAvPath(videoPath)
  {
    RunMergeAvPlan(callback, fails);
    var outputPath := MergedAvPath(videoPath);
    reported := Shown(callback, [20]);
    if Raises(fails, 0) || Raises(fails, 1) {
      return reported, None;
    }
    reported := reported + Shown(callback, [60]);
    if Raises(fails, 2) || Raises(fails, 3) {
      return reported, None;
    }
    reported := reported + Shown(callback, [100]);
    output := Some(outputPath);
  }

  /** `rename_file`: one copy (call 0) to TEMP_DIR/<new name>, no progress. */
  method RenameFile(inputPath: string, newName: string, fails: Option<nat>)
    returns (output: Option<string>)
    ensures output.Some? <==> !Raises(fails, 0)
    ensures output.Some? ==> output.value == RenamedPath(newName)
  {
    if Raises(fails, 0) {
      return None;
    }
    output := Some(RenamedPath(newName));
  }
}
