/** The public-folder files behind the video: code snapshots, narration
    audio and story scripts, paired by index
    (src/calculate-metadata/get-files.ts). Network requests are given as
    functions from URL to the text or JSON they deliver. */
module GetFiles {
  import opened Wrappers

  /** A file of the public folder: its name and the URL it is served at. */
  datatype StaticFile = StaticFile(name: string, src: string)

  /** One entry of a story script. */
  datatype ScriptEntry = ScriptEntry(videoDuration: Option<real>)

  /** A story script: entries keyed by code name. */
  type Script = map<string, ScriptEntry>

  /** What the network delivers: the body of a URL as text, and as a parsed
      script; `None` when the request or the parsing rejects. */
  datatype Network = Network(text: string -> Option<string>, json: string -> Option<Script>)

  /** One code file with its contents, its audio and its script. */
  datatype PublicFolderFile = PublicFolderFile(
    filename: string,
    value: string,
    audioSrc: Option<string>,
    script: Option<Script>)

  /** One audio file with the duration its script gives it. */
  datatype AudioWithStory = AudioWithStory(audioSrc: string, videoDuration: Option<real>)

  /** Why a returned promise rejects. */
  datatype FileError =
    | RequestFailed(url: string)  // a fetch, or the parsing of its body, rejected
    | NoCodeFile(index: nat)      // `extractCodeName` was handed `undefined`

  const CodePrefix: string := "react-native"
  const AudioPrefix: string := "audio"
  const StoryPrefix: string := "story"

  /** The files whose name starts with `prefix`, in folder order. */
  function WithPrefix(files: seq<StaticFile>, prefix: string): (r: seq<StaticFile>)
    ensures forall f :: f in r <==> f in files && prefix <= f.name
    ensures |r| <= |files|
  {
    if files == [] then []
    else (if prefix <= files[0].name then [files[0]] else []) + WithPrefix(files[1..], prefix)
  }

  /** Filtering keeps the folder's order: it distributes over concatenation. */
  lemma {:induction false} WithPrefixConcat(a: seq<StaticFile>, b: seq<StaticFile>, prefix: string)
    ensures WithPrefix(a + b, prefix) == WithPrefix(a, prefix) + WithPrefix(b, prefix)
  {
    if a == [] {
      assert a + b == b;
    } else {
      assert (a + b)[0] == a[0];
      assert (a + b)[1..] == a[1..] + b;
      WithPrefixConcat(a[1..], b, prefix);
    }
  }

  /** A folder whose files all match loses none of them, and keeps their order. */
  lemma {:induction false} WithPrefixKeepsMatching(files: seq<StaticFile>, prefix: string)
    requires forall i :: 0 <= i < |files| ==> prefix <= files[i].name
    ensures WithPrefix(files, prefix) == files
  {
    if files != [] {
      assert prefix <= files[0].name;
      WithPrefixKeepsMatching(files[1..], prefix);
      assert files == [files[0]] + files[1..];
    }
  }

  function CodeFiles(files: seq<StaticFile>): seq<StaticFile> { WithPrefix(files, CodePrefix) }
  function AudioFiles(files: seq<StaticFile>): seq<StaticFile> { WithPrefix(files, AudioPrefix) }
  function StoryFiles(files: seq<StaticFile>): seq<StaticFile> { WithPrefix(files, StoryPrefix) }

  /** The position of the last `/` in `s`, if any. */
  function LastSlash(s: string): (k: Option<nat>)
    ensures k.Some? ==> k.value < |s| && s[k.value] == '/' && '/' !in s[k.value + 1..]
    ensures k.None? ==> '/' !in s
  {
    if s == [] then None
    else if s[|s| - 1] == '/' then Some(|s| - 1)
    else LastSlash(s[..|s| - 1])
  }

  /** The regular expression `\/([^\/]+)\.xml$`: the non-empty, slash-free
      name between the last `/` and a final `.xml`. */
  function ExtractCodeName(s: string): (r: Option<string>)
    ensures r.Some? ==> r.value != [] && '/' !in r.value
    ensures r.Some? ==> |r.value| + 5 <= |s| && s == s[..|s| - |r.value| - 5] + "/" + r.value + ".xml"
  {
    if |s| < 4 || s[|s| - 4..] != ".xml" then None
    else
      var body := s[..|s| - 4];
      match LastSlash(body)
      case None => None
      case Some(k) =>
        if k + 1 < |body| then
          var name := body[k + 1..];
          assert s == s[..k] + "/" + name + ".xml" by {
            assert body == body[..k] + [body[k]] + name;
            assert s == body + ".xml";
          }
          Some(name)
        else None
  }

  /** Round trip: a name placed after a `/` and before `.xml` is what
      `extractCodeName` gives back, so it fails exactly on paths not of that
      form. */
  lemma ExtractCodeNameRoundTrip(path: string, name: string)
    requires name != [] && '/' !in name
    ensures ExtractCodeName(path + "/" + name + ".xml") == Some(name)
  {
    var s := path + "/" + name + ".xml";
    var body := path + "/" + name;
    assert s[..|s| - 4] == body;
    assert s[|s| - 4..] == ".xml";
    assert body[|path|] == '/';
    assert body[|path| + 1..] == name;
  }

  /** The example from the source's documentation. */
  lemma ExtractCodeNameExample()
    ensures ExtractCodeName("react-native/code1.xml") == Some("code1")
  {
    assert "react-native/code1.xml" == "react-native" + "/" + "code1" + ".xml";
    ExtractCodeNameRoundTrip("react-native", "code1");
  }

  /** `Promise.all`: every value in order, or the first rejection. */
  function All<T>(rs: seq<Result<T, FileError>>): (r: Result<seq<T>, FileError>)
    ensures r.Ok? <==> forall i :: 0 <= i < |rs| ==> rs[i].Ok?
    ensures r.Ok? ==> |r.value| == |rs| && forall i :: 0 <= i < |rs| ==> rs[i] == Ok(r.value[i])
    ensures r.Err? ==> exists k :: 0 <= k < |rs| && rs[k] == Err(r.error) && forall j :: 0 <= j < k ==> rs[j].Ok?
  {
    if rs == [] then Ok([])
    else match rs[0]
      case Err(e) => Err(e)
      case Ok(v) =>
        match All(rs[1..])
        case Err(e) => Err(e)
        case Ok(vs) => Ok([v] + vs)
  }

  /** The audio URL paired with the `index`-th code file. */
  function AudioSrcAt(audioFiles: seq<StaticFile>, index: nat): (r: Option<string>)
    ensures r.Some? <==> index < |audioFiles|
    ensures r.Some? ==> r.value == audioFiles[index].src
  {
    if index < |audioFiles| then Some(audioFiles[index].src) else None
  }

  /** The record built for the `index`-th code file. */
  function FileRecord(files: seq<StaticFile>, net: Network, index: nat): (r: Result<PublicFolderFile, FileError>)
    requires index < |CodeFiles(files)|
    ensures r.Ok? <==> net.text(CodeFiles(files)[index].src).Some?
                       && (index < |StoryFiles(files)| ==> net.json(StoryFiles(files)[index].src).Some?)
    ensures net.text(CodeFiles(files)[index].src).None? ==> r == Err(RequestFailed(CodeFiles(files)[index].src))
    ensures (net.text(CodeFiles(files)[index].src).Some? && index < |StoryFiles(files)|
             && net.json(StoryFiles(files)[index].src).None?) ==> r == Err(RequestFailed(StoryFiles(files)[index].src))
    ensures r.Ok? ==> && r.value.filename == CodeFiles(files)[index].name
                      && Some(r.value.value) == net.text(CodeFiles(files)[index].src)
                      && r.value.audioSrc == AudioSrcAt(AudioFiles(files), index)
                      && (r.value.script.Some? <==> index < |StoryFiles(files)|)
                      && (index < |StoryFiles(files)| ==> r.value.script == net.json(StoryFiles(files)[index].src))
  {
    var file := CodeFiles(files)[index];
    var scripts := StoryFiles(files);
    match net.text(file.src)
    case None => Err(RequestFailed(file.src))
    case Some(text) =>
      if index < |scripts| then
        match net.json(scripts[index].src)
        case None => Err(RequestFailed(scripts[index].src))
        case Some(script) => Ok(PublicFolderFile(file.name, text, AudioSrcAt(AudioFiles(files), index), Some(script)))
      else Ok(PublicFolderFile(file.name, text, AudioSrcAt(AudioFiles(files), index), None))
  }

  /** `getFiles`: one record per code file, in order, or the first rejection. */
  function GetFiles(files: seq<StaticFile>, net: Network): (r: Result<seq<PublicFolderFile>, FileError>)
    ensures r.Ok? ==> |r.value| == |CodeFiles(files)|
    ensures r.Ok? <==> forall i :: 0 <= i < |CodeFiles(files)| ==> FileRecord(files, net, i).Ok?
    ensures r.Ok? ==> forall i :: 0 <= i < |r.value| ==> FileRecord(files, net, i) == Ok(r.value[i])
  {
    var codeFiles := CodeFiles(files);
    var records := seq(|codeFiles|, i requires 0 <= i < |codeFiles| => FileRecord(files, net, i));
    assert forall i :: 0 <= i < |codeFiles| ==> records[i] == FileRecord(files, net, i);
    All(records)
  }

  /** `getFiles` succeeds exactly when every code file can be fetched, and
      so can the story file of the same index when there is one. */
  lemma GetFilesSucceeds(files: seq<StaticFile>, net: Network)
    ensures GetFiles(files, net).Ok? <==> forall i :: 0 <= i < |CodeFiles(files)| ==>
              && net.text(CodeFiles(files)[i].src).Some?
              && (i < |StoryFiles(files)| ==> net.json(StoryFiles(files)[i].src).Some?)
  {
    forall i | 0 <= i < |CodeFiles(files)|
      ensures FileRecord(files, net, i).Ok? <==>
                && net.text(CodeFiles(files)[i].src).Some?
                && (i < |StoryFiles(files)| ==> net.json(StoryFiles(files)[i].src).Some?)
    {
    }
  }

  /** The `index`-th record carries the `index`-th code file's name and
      contents, the `index`-th audio file's URL when there is one, and the
      `index`-th story file's script exactly when there is one. */
  lemma GetFilesRecord(files: seq<StaticFile>, net: Network, index: nat)
    requires GetFiles(files, net).Ok? && index < |GetFiles(files, net).value|
    ensures var f := GetFiles(files, net).value[index];
      && f.filename == CodeFiles(files)[index].name
      && Some(f.value) == net.text(CodeFiles(files)[index].src)
      && (f.audioSrc.Some? <==> index < |AudioFiles(files)|)
      && (index < |AudioFiles(files)| ==> f.audioSrc == Some(AudioFiles(files)[index].src))
      && (f.script.Some? <==> index < |StoryFiles(files)|)
      && (index < |StoryFiles(files)| ==> f.script == net.json(StoryFiles(files)[index].src))
  {
    assert FileRecord(files, net, index) == Ok(GetFiles(files, net).value[index]);
  }

  /** The key a script is read under: the code name, or `"null"` when
      there is none, as a JavaScript property lookup with `null` does. */
  function ScriptKey(name: string): (r: string)
    ensures r != []
    ensures ExtractCodeName(name).Some? ==> r == ExtractCodeName(name).value
    ensures ExtractCodeName(name).None? ==> r == "null"
  {
    match ExtractCodeName(name)
    case Some(n) => n
    case None => "null"
  }

  /** The URL requested for the `index`-th script: a missing story file
      makes `fetch` request the URL "undefined". */
  function StoryUrl(files: seq<StaticFile>, index: nat): (r: string)
    ensures index < |StoryFiles(files)| ==> r == StoryFiles(files)[index].src
    ensures index >= |StoryFiles(files)| ==> r == "undefined"
  {
    if index < |StoryFiles(files)| then StoryFiles(files)[index].src else "undefined"
  }

  /** The entry built for the `index`-th audio file; a missing code file
      makes `extractCodeName` throw. */
  function AudioEntry(files: seq<StaticFile>, net: Network, index: nat): (r: Result<AudioWithStory, FileError>)
    requires index < |AudioFiles(files)|
    ensures r.Ok? <==> net.json(StoryUrl(files, index)).Some? && index < |CodeFiles(files)|
    ensures net.json(StoryUrl(files, index)).None? ==> r == Err(RequestFailed(StoryUrl(files, index)))
    ensures net.json(StoryUrl(files, index)).Some? && index >= |CodeFiles(files)| ==> r == Err(NoCodeFile(index))
    ensures r.Ok? ==> && r.value.audioSrc == AudioFiles(files)[index].src
                      && var script := net.json(StoryUrl(files, index)).value;
                         var key := ScriptKey(CodeFiles(files)[index].name);
                         r.value.videoDuration == (if key in script then script[key].videoDuration else None)
  {
    var url := StoryUrl(files, index);
    match net.json(url)
    case None => Err(RequestFailed(url))
    case Some(script) =>
      if index < |CodeFiles(files)| then
        var key := ScriptKey(CodeFiles(files)[index].name);
        Ok(AudioWithStory(AudioFiles(files)[index].src, if key in script then script[key].videoDuration else None))
      else Err(NoCodeFile(index))
  }

  /** `getAudioWithStory`: one entry per audio file, in order, or the first rejection. */
  function GetAudioWithStory(files: seq<StaticFile>, net: Network): (r: Result<seq<AudioWithStory>, FileError>)
    ensures r.Ok? ==> |r.value| == |AudioFiles(files)|
    ensures r.Ok? <==> forall i :: 0 <= i < |AudioFiles(files)| ==> AudioEntry(files, net, i).Ok?
    ensures r.Ok? ==> forall i :: 0 <= i < |r.value| ==> AudioEntry(files, net, i) == Ok(r.value[i])
  {
    var audioFiles := AudioFiles(files);
    var entries := seq(|audioFiles|, i requires 0 <= i < |audioFiles| => AudioEntry(files, net, i));
    assert forall i :: 0 <= i < |audioFiles| ==> entries[i] == AudioEntry(files, net, i);
    All(entries)
  }

  /** The `index`-th entry carries the `index`-th audio file's URL and the
      duration that the `index`-th script gives under the name of the
      `index`-th code file. */
  lemma GetAudioWithStoryEntry(files: seq<StaticFile>, net: Network, index: nat)
    requires GetAudioWithStory(files, net).Ok? && index < |GetAudioWithStory(files, net).value|
    ensures index < |CodeFiles(files)|
    ensures GetAudioWithStory(files, net).value[index].audioSrc == AudioFiles(files)[index].src
    ensures net.json(StoryUrl(files, index)).Some?
    ensures var script := net.json(StoryUrl(files, index)).value;
      var key := ScriptKey(CodeFiles(files)[index].name);
      GetAudioWithStory(files, net).value[index].videoDuration
        == (if key in script then script[key].videoDuration else None)
  {
    var e := GetAudioWithStory(files, net).value[index];
    assert AudioEntry(files, net, index) == Ok(e);
    var script :| net.json(StoryUrl(files, index)) == Some(script);
    assert index < |CodeFiles(files)|;
  }

  /** More audio files than code files: the entry for the first audio file
      without a code file cannot be built, so the whole call rejects. */
  lemma GetAudioWithStoryNeedsCodeFiles(files: seq<StaticFile>, net: Network)
    requires |CodeFiles(files)| < |AudioFiles(files)|
    ensures GetAudioWithStory(files, net).Err?
  {
    var i := |CodeFiles(files)|;
    assert !AudioEntry(files, net, i).Ok?;
  }
}
