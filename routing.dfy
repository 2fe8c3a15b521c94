/** The pure decisions of bot.py: which uploads are accepted and where
    they are staged, which handler a button payload reaches, which state a
    handler leaves the user in, and how the split times are read. */
module Routing {
  import opened Wrappers
  import opened Config
  import opened Text
  import opened Paths
  import Users

  // ---------------------------------------------------------------------------
  // The states bot.py stores in the user manager

  const AwaitingMergeFiles: string := "awaiting_merge_files"
  const AwaitingAudioMerge: string := "awaiting_audio_merge"
  const AwaitingSplitTimes: string := "awaiting_split_times"
  const AwaitingNewName: string := "awaiting_new_name"

  // ---------------------------------------------------------------------------
  // handle_document: classification of an uploaded document

  /** The extension `handle_document` looks at: `splitext(name)[1].lower()`. */
  function FileExt(fileName: string): (ext: string)
    ensures |ext| == |Ext(fileName)|
    ensures ext == [] || ext[0] == '.'
  {
    Lower(Ext(fileName))
  }

  /** No name is both a video and an audio format. */
  lemma FormatListsDisjoint(ext: string)
    ensures !(ext in VideoFormats && ext in AudioFormats)
  {
    if ext in VideoFormats {
      assert ext[3] in "4ivvv";
    }
    if ext in AudioFormats {
      assert ext[3] in "3vca";
    }
  }

  /** The kind of a document, by its extension: the video list is tried
      before the audio list; anything else is unsupported. */
  function Classify(fileName: string): (kind: Option<FileKind>)
    ensures kind == Some(Video) <==> FileExt(fileName) in VideoFormats
    ensures kind == Some(Audio) <==> FileExt(fileName) in AudioFormats
  {
    var ext := FileExt(fileName);
    FormatListsDisjoint(ext);
    if ext in VideoFormats then Some(Video)
    else if ext in AudioFormats then Some(Audio)
    else None
  }

  /** Classification ignores the case of the name. */
  lemma ClassifyIgnoresCase(fileName: string)
    ensures Classify(Lower(fileName)) == Classify(fileName)
  {
    ExtLower(fileName);
    LowerIdempotent(Ext(fileName));
  }

  /** Every supported format is a dot and three characters. */
  lemma FormatLengths()
    ensures forall f :: f in VideoFormats ==> |f| == 4
    ensures forall f :: f in AudioFormats ==> |f| == 4
  {
  }

  /** A name without an extension is refused. */
  lemma ClassifyNeedsExtension(fileName: string)
    requires Ext(fileName) == []
    ensures Classify(fileName) == None
  {
    FormatLengths();
    assert |FileExt(fileName)| == 0;
  }

  /** The extension of a plain name `stem.e` is `.e`, lower-cased. */
  lemma FileExtOfName(stem: string, e: string)
    requires stem != [] && stem[0] != '.' && '/' !in stem
    requires '.' !in e && '/' !in e
    ensures FileExt(stem + "." + e) == "." + Lower(e)
  {
    ExtOfName(stem, e);
    FileExtOfDotted(stem + "." + e, e);
  }

  lemma FileExtOfDotted(fileName: string, e: string)
    requires Ext(fileName) == "." + e
    ensures FileExt(fileName) == "." + Lower(e)
  {
    var d := ".";
    LowerConcat(d, e);
    assert Lower(d) == d by {
      assert |Lower(d)| == 1 && Lower(d)[0] == LowerChar(d[0]);
    }
    assert FileExt(fileName) == Lower(d + e);
  }

  /** An upper-case extension is accepted: "CLIP.MP4" is a video, and so
      is every plain name ending in ".MP4". */
  lemma ClassifyUpperCaseVideo(stem: string)
    requires stem != [] && stem[0] != '.' && '/' !in stem
    ensures Classify(stem + "." + "MP4") == Some(Video)
  {
    FileExtOfName(stem, "MP4");
    LowerMp4();
  }

  /** A Kelvin sign in the extension lowers to 'k': a name such as
      "clip.M\u212AV" is staged as a ".mkv" video. */
  lemma ClassifyKelvinSign(stem: string, e: string)
    requires stem != [] && stem[0] != '.' && '/' !in stem
    requires |e| == 3 && e[0] == 'M' && e[1] == KelvinSign && e[2] == 'V'
    ensures FileExt(stem + "." + e) == ".mkv"
    ensures Classify(stem + "." + e) == Some(Video)
  {
    assert '.' !in e && '/' !in e;
    FileExtOfName(stem, e);
    LowerMkv(e);
  }

  lemma LowerMkv(e: string)
    requires |e| == 3 && e[0] == 'M' && e[1] == KelvinSign && e[2] == 'V'
    ensures "." + Lower(e) == ".mkv"
  {
    var l := Lower(e);
    assert l[0] == 'm' && l[1] == 'k' && l[2] == 'v';
  }

  lemma LowerMp4()
    ensures "." + Lower("MP4") == ".mp4"
  {
    var e := Lower("MP4");
    assert e[0] == 'm' && e[1] == 'p' && e[2] == '4';
  }

  /** A name made only of a leading dot and a dot-free format, such as
      ".mp4", has no extension for `splitext`, so it is refused. */
  lemma ClassifyDotFile(e: string)
    requires '.' !in e && '/' !in e
    ensures Ext("." + e) == []
    ensures Classify("." + e) == None
  {
    var name := "." + e;
    assert name[1..] == e;
    assert '/' !in name by {
      assert forall i :: 0 <= i < |name| ==> name[i] == '.' || name[i] == e[i - 1];
    }
    BasenameOfName(name);
    assert e != [] ==> e[0] in e;
    assert DropLeadingDots(name) == e;
    ClassifyNeedsExtension(name);
  }

  // ---------------------------------------------------------------------------
  // Staged-file names

  /** `f"temp_files/{user_id}_{file_id}{ext}"`. */
  function DocumentPath(user: int, fileId: string, ext: string): (p: string)
    ensures TempDir + "/" <= p && IsSuffix(ext, p)
  {
    TempDir + "/" + IntToDecimal(user) + "_" + fileId + ext
  }

  /** `handle_video` stores every video as `.mp4`. */
  function VideoPath(user: int, fileId: string): (p: string)
    ensures IsSuffix(".mp4", p)
  {
    DocumentPath(user, fileId, ".mp4")
  }

  /** The text before the first '_'. */
  function UpToUnderscore(s: string): (r: string)
    ensures r <= s && '_' !in r
  {
    if s == [] || s[0] == '_' then [] else [s[0]] + UpToUnderscore(s[1..])
  }

  lemma {:induction false} UpToUnderscoreOf(a: string, rest: string)
    requires '_' !in a
    ensures UpToUnderscore(a + "_" + rest) == a
  {
    if a != [] {
      assert (a + "_" + rest)[1..] == a[1..] + "_" + rest;
      UpToUnderscoreOf(a[1..], rest);
    }
  }

  /** The staged path names its user: the text between "temp_files/" and
      the first '_' is the user id. */
  lemma DocumentPathUser(user: int, fileId: string, ext: string)
    ensures UpToUnderscore(DocumentPath(user, fileId, ext)[|TempDir| + 1..]) == IntToDecimal(user)
  {
    var d := IntToDecimal(user);
    assert '_' !in d by {
      assert forall i :: 0 <= i < |d| ==> d[i] != '_';
    }
    assert DocumentPath(user, fileId, ext)[|TempDir| + 1..] == d + "_" + (fileId + ext);
    UpToUnderscoreOf(d, fileId + ext);
  }

  /** Two users never get the same staged path, whatever their file ids
      and extensions. */
  lemma StagedPathsOfUsersDiffer(user: int, other: int, fileId: string, otherId: string, ext: string, otherExt: string)
    ensures user != other ==> DocumentPath(user, fileId, ext) != DocumentPath(other, otherId, otherExt)
  {
    DocumentPathUser(user, fileId, ext);
    DocumentPathUser(other, otherId, otherExt);
    if DocumentPath(user, fileId, ext) == DocumentPath(other, otherId, otherExt) {
      IntToDecimalInjective(user, other);
    }
  }

  // ---------------------------------------------------------------------------
  // button_handler: payload routing

  /** The handler a button payload reaches, with the format it carries. */
  datatype Action =
    | MainMenu
    | ConvertMenu
    | AudioMenu
    | Convert(format: string)
    | ExtractAudio(format: string)
    | StartMerge
    | StartAvMerge
    | StartSplit
    | StartRename
    | NoAction

  const FormatPrefix: string := "format_"
  const AudioPrefix: string := "audio_"

  /** A text that differs from `p` at index `k` does not start with `p`. */
  lemma NotPrefixed(data: string, p: string, k: nat)
    requires k < |data| && k < |p| && data[k] != p[k]
    ensures !StartsWith(data, p)
  {
    if |p| <= |data| {
      assert data[..|p|][k] != p[k];
    }
  }

  /** The if/elif chain of `button_handler`: the three exact menu payloads
      first, then the two prefixes (every occurrence of the prefix is
      removed from the payload), then the remaining exact payloads; anything
      else does nothing. */
  function Route(data: string): (action: Action)
    ensures action.Convert? <==> StartsWith(data, FormatPrefix)
    ensures action.ExtractAudio? <==> StartsWith(data, AudioPrefix) && data != "audio_menu"
    ensures action.Convert? ==> |action.format| <= |data| - |FormatPrefix|
    ensures action.ExtractAudio? ==> |action.format| <= |data| - |AudioPrefix|
  {
    if data == "main_menu" then
      NotPrefixed(data, FormatPrefix, 0);
      NotPrefixed(data, AudioPrefix, 0);
      MainMenu
    else if data == "convert_menu" then
      NotPrefixed(data, FormatPrefix, 0);
      NotPrefixed(data, AudioPrefix, 0);
      ConvertMenu
    else if data == "audio_menu" then
      NotPrefixed(data, FormatPrefix, 0);
      AudioMenu
    else if StartsWith(data, FormatPrefix) then
      NotPrefixed(data, AudioPrefix, 0);
      RemoveAllLeading(data[|FormatPrefix|..], FormatPrefix);
      assert FormatPrefix + data[|FormatPrefix|..] == data;
      Convert(RemoveAll(data, FormatPrefix))
    else if StartsWith(data, AudioPrefix) then
      RemoveAllLeading(data[|AudioPrefix|..], AudioPrefix);
      assert AudioPrefix + data[|AudioPrefix|..] == data;
      ExtractAudio(RemoveAll(data, AudioPrefix))
    else if data == "merge_menu" then StartMerge
    else if data == "av_merge_menu" then StartAvMerge
    else if data == "split_menu" then StartSplit
    else if data == "rename" then StartRename
    else NoAction
  }

  /** `replace` also removes a prefix that stands after other text, as in
      "format_mpformat_4", which converts to "mp4". */
  lemma RouteInnerPrefix(a: string, b: string)
    requires forall i :: 0 <= i < |a| ==> !OccursAt(FormatPrefix, a + FormatPrefix + b, i)
    ensures Route(FormatPrefix + a + FormatPrefix + b) == Convert(a + RemoveAll(b, FormatPrefix))
  {
    var rest := a + FormatPrefix + b;
    assert FormatPrefix + a + FormatPrefix + b == FormatPrefix + rest;
    RemoveAllLeading(rest, FormatPrefix);
    RemoveAllFirst(a, b, FormatPrefix);
  }

  /** A format button "format_<f>" converts to `f`. */
  lemma RouteFormatButton(f: string)
    requires !OccursIn(FormatPrefix, f)
    ensures Route(FormatPrefix + f) == Convert(f)
  {
    RemoveAllLeading(f, FormatPrefix);
    RemoveAllAbsent(f, FormatPrefix);
  }

  /** An audio button "audio_<f>" extracts to `f`, except "audio_menu". */
  lemma RouteAudioButton(f: string)
    requires !OccursIn(AudioPrefix, f) && f != "menu"
    ensures Route(AudioPrefix + f) == ExtractAudio(f)
  {
    NotPrefixed(AudioPrefix + f, FormatPrefix, 0);
    RemoveAllLeading(f, AudioPrefix);
    RemoveAllAbsent(f, AudioPrefix);
  }

  /** "audio_menu" starts with "audio_" but opens the menu: exact matches
      are tested first. */
  lemma RouteAudioMenu()
    ensures StartsWith("audio_menu", AudioPrefix)
    ensures Route("audio_menu") == AudioMenu
  {
  }

  /** Every occurrence of the prefix is removed, not just the leading one:
      "format_format_mp4" converts to "mp4". */
  lemma RouteRepeatedPrefix()
    ensures Route("format_format_mp4") == Convert("mp4")
  {
    RemoveAllLeading("format_mp4", FormatPrefix);
    RemoveAllLeading("mp4", FormatPrefix);
    assert "format_format_mp4" == FormatPrefix + "format_mp4";
    assert "format_mp4" == FormatPrefix + "mp4";
    assert RemoveAll("mp4", FormatPrefix) == "mp4";
  }

  /** The two buttons of the merge keyboard reach no handler. */
  lemma RouteMergeKeyboard()
    ensures Route("process_merge") == NoAction
    ensures Route("add_more_merge") == NoAction
  {
    NotPrefixed("add_more_merge", AudioPrefix, 1);
  }

  /** The four "start" buttons of the main menu. */
  lemma RouteStartButtons()
    ensures Route("merge_menu") == StartMerge
    ensures Route("av_merge_menu") == StartAvMerge
    ensures Route("split_menu") == StartSplit
    ensures Route("rename") == StartRename
  {
    NotPrefixed("merge_menu", FormatPrefix, 0);
    NotPrefixed("merge_menu", AudioPrefix, 0);
    NotPrefixed("av_merge_menu", FormatPrefix, 0);
    NotPrefixed("av_merge_menu", AudioPrefix, 1);
    NotPrefixed("split_menu", FormatPrefix, 0);
    NotPrefixed("split_menu", AudioPrefix, 0);
    NotPrefixed("rename", FormatPrefix, 0);
    NotPrefixed("rename", AudioPrefix, 0);
  }

  /** The state a routed action stores for the user, if it stores one. */
  function StateSetBy(action: Action): (state: Option<string>)
    ensures state.Some? <==> action in {StartMerge, StartAvMerge, StartSplit, StartRename}
    ensures state.Some? ==> state.value != Users.Idle
  {
    match action
    case StartMerge => Some(AwaitingMergeFiles)
    case StartAvMerge => Some(AwaitingAudioMerge)
    case StartSplit => Some(AwaitingSplitTimes)
    case StartRename => Some(AwaitingNewName)
    case _ => None
  }

  // ---------------------------------------------------------------------------
  // handle_text: reading the split times

  /** `start, end = map(float, text.split())`: the two tokens when the text
      has exactly two and both parse as numbers (`numeric` stands for
      `float` not raising), `None` when the unpacking or a parse raises. */
  function SplitTimes(text: string, numeric: string -> bool): (times: Option<(string, string)>)
    ensures times.Some? ==> WhitespaceSplit(text) == [times.value.0, times.value.1]
    ensures times.Some? ==> numeric(times.value.0) && numeric(times.value.1)
  {
    var tokens := WhitespaceSplit(text);
    if |tokens| == 2 && numeric(tokens[0]) && numeric(tokens[1]) then Some((tokens[0], tokens[1]))
    else None
  }

  /** Exactly two numeric tokens are accepted, whatever the white space
      around or between them. */
  lemma SplitTimesIff(text: string, numeric: string -> bool)
    ensures SplitTimes(text, numeric).Some? <==>
      |WhitespaceSplit(text)| == 2 && numeric(WhitespaceSplit(text)[0]) && numeric(WhitespaceSplit(text)[1])
  {
  }

  /** "10 30" is read as the times "10" and "30". */
  lemma SplitTimesOfTwoWords(start: string, sep: char, end: string, numeric: string -> bool)
    requires start != [] && NoSpace(start) && end != [] && NoSpace(end) && IsSpace(sep)
    requires numeric(start) && numeric(end)
    ensures SplitTimes(start + [sep] + end, numeric) == Some((start, end))
  {
    SplitTwoWords(start, sep, end);
  }

  /** A single word is refused, numeric or not. */
  lemma SplitTimesOfOneWord(word: string, numeric: string -> bool)
    requires word != [] && NoSpace(word)
    ensures SplitTimes(word, numeric) == None
  {
    SplitOneWord(word);
  }
}
