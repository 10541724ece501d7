/**
 * The upload endpoint. A file with the current document's name is treated as
 * the same document and changes nothing. Any other upload first saves the
 * current document's record under the history directory, then resets the
 * session, then stores the upload under the temporary directory and makes it
 * the current document.
 * Paths follow POSIX `os.path.join`; the history file name is the joined path
 * with every "pdf" replaced by "json".
 */
module UploadApi {
  import opened Wrappers
  import opened DocQaTypes
  import opened ServerState
  import Common

  /** An uploaded file: its name as sent (possibly missing) and an identity standing for its bytes. */
  datatype UploadFile = UploadFile(filename: Option<string>, content: nat)

  /** POSIX `os.path.join(dir, name)` for two components. */
  function PathJoin(dir: string, name: string): (p: string)
    ensures Common.StartsWith(name, "/") ==> p == name
    ensures !Common.StartsWith(name, "/") ==>
              |dir| + |name| <= |p| <= |dir| + |name| + 1 && p[..|dir|] == dir && p[|p| - |name|..] == name
    ensures !Common.StartsWith(name, "/") && dir != [] ==> p[|p| - |name| - 1] == '/'
  {
    if Common.StartsWith(name, "/") then name
    else if dir == [] || dir[|dir| - 1] == '/' then dir + name
    else dir + "/" + name
  }

  /** `pat` occurs in `s` starting at index `k`. */
  predicate OccursAt(s: string, pat: string, k: int)
  {
    0 <= k && k + |pat| <= |s| && s[k..k + |pat|] == pat
  }

  /** Python's `s.replace(pat, rep)`: non-overlapping occurrences, left to right. */
  function ReplaceAll(s: string, pat: string, rep: string): string
    requires pat != []
    decreases |s|
  {
    if |s| < |pat| then s
    else if s[..|pat|] == pat then rep + ReplaceAll(s[|pat|..], pat, rep)
    else [s[0]] + ReplaceAll(s[1..], pat, rep)
  }

  /** A replacement as long as the pattern keeps the length; a longer one never shortens the string. */
  lemma {:induction false} ReplaceLength(s: string, pat: string, rep: string)
    requires pat != []
    ensures |rep| == |pat| ==> |ReplaceAll(s, pat, rep)| == |s|
    ensures |rep| >= |pat| ==> |ReplaceAll(s, pat, rep)| >= |s|
    decreases |s|
  {
    if |s| >= |pat| {
      if s[..|pat|] == pat {
        ReplaceLength(s[|pat|..], pat, rep);
      } else {
        ReplaceLength(s[1..], pat, rep);
      }
    }
  }

  /** A string in which `pat` does not occur comes back unchanged. */
  lemma {:induction false} ReplaceWithoutOccurrence(s: string, pat: string, rep: string)
    requires pat != []
    requires forall k :: !OccursAt(s, pat, k)
    ensures ReplaceAll(s, pat, rep) == s
    decreases |s|
  {
    if |s| >= |pat| {
      assert !OccursAt(s, pat, 0);
      forall k
        ensures !OccursAt(s[1..], pat, k)
      {
        assert !OccursAt(s, pat, k + 1);
        if 0 <= k && k + |pat| <= |s[1..]| {
          assert s[1..][k..k + |pat|] == s[k + 1..k + 1 + |pat|];
        }
      }
      ReplaceWithoutOccurrence(s[1..], pat, rep);
    }
  }

  /** The first character of a replacement: the replacement's own when `s` starts with `pat`, else `s`'s. */
  lemma ReplaceHead(s: string, pat: string, rep: string)
    requires pat != [] && rep != [] && s != []
    ensures ReplaceAll(s, pat, rep) != []
    ensures ReplaceAll(s, pat, rep)[0] == if |s| >= |pat| && s[..|pat|] == pat then rep[0] else s[0]
  {
  }

  /** No "pdf" is left after replacing "pdf" by "json", including across the seams. */
  lemma {:induction false} NoPdfAfterReplace(s: string)
    ensures forall k :: !OccursAt(ReplaceAll(s, "pdf", "json"), "pdf", k)
    decreases |s|
  {
    if |s| < 3 {
      forall k ensures !OccursAt(ReplaceAll(s, "pdf", "json"), "pdf", k) {
      }
    } else if s[..3] == "pdf" {
      NoPdfAfterReplace(s[3..]);
      NoPdfAfterJson(ReplaceAll(s[3..], "pdf", "json"));
    } else {
      var t := s[1..];
      NoPdfAfterReplace(t);
      ReplaceHead(t, "pdf", "json");
      if |t| >= 2 && s[0] == 'p' && t[0] == 'd' {
        // s starts with "pd" but not "pdf", so t does not start with "pdf"
        assert s[..3] == [s[0], t[0], t[1]];
        assert |ReplaceAll(t, "pdf", "json")| >= 2 && ReplaceAll(t, "pdf", "json")[1] != 'f' by {
          ReplaceShift(t);
          ReplaceHead(t[1..], "pdf", "json");
        }
      }
      NoPdfAfterChar(s[0], ReplaceAll(t, "pdf", "json"));
    }
  }

  /** Replacing in a string that starts with 'd' but not with "pdf" keeps the 'd' and replaces the rest. */
  lemma ReplaceShift(t: string)
    requires |t| >= 2 && t[0] == 'd'
    ensures ReplaceAll(t, "pdf", "json") == [t[0]] + ReplaceAll(t[1..], "pdf", "json")
  {
    if |t| >= 3 {
      assert t[..3][0] == 'd';
    }
  }

  /** "json" followed by a string without "pdf" holds no "pdf". */
  lemma NoPdfAfterJson(rest: string)
    requires forall k :: !OccursAt(rest, "pdf", k)
    ensures forall k :: !OccursAt("json" + rest, "pdf", k)
  {
    var r := "json" + rest;
    forall k | 0 <= k && k + 3 <= |r|
      ensures !OccursAt(r, "pdf", k)
    {
      if k < 4 {
        assert r[k..k + 3][0] == "json"[k];
      } else {
        assert r[k..k + 3] == rest[k - 4..k - 1];
        assert !OccursAt(rest, "pdf", k - 4);
      }
    }
  }

  /** One character before a string without "pdf" adds no "pdf" unless it completes a "p" + "df". */
  lemma NoPdfAfterChar(c: char, rest: string)
    requires forall k :: !OccursAt(rest, "pdf", k)
    requires c == 'p' && |rest| >= 2 && rest[0] == 'd' ==> rest[1] != 'f'
    ensures forall k :: !OccursAt([c] + rest, "pdf", k)
  {
    var r := [c] + rest;
    forall k | 0 <= k && k + 3 <= |r|
      ensures !OccursAt(r, "pdf", k)
    {
      if k == 0 {
        assert r[0..3] == [c, rest[0], rest[1]];
      } else {
        assert r[k..k + 3] == rest[k - 1..k + 2];
        assert !OccursAt(rest, "pdf", k - 1);
      }
    }
  }

  /**
   * Replacing splits at a boundary no occurrence can straddle: the prefix ends
   * with a character that `pat` does not contain (a path separator, say).
   */
  lemma {:induction false} ReplaceSplits(p: string, n: string, pat: string, rep: string)
    requires pat != []
    requires p == [] || p[|p| - 1] !in pat
    ensures ReplaceAll(p + n, pat, rep) == ReplaceAll(p, pat, rep) + ReplaceAll(n, pat, rep)
    decreases |p|
  {
    if p == [] {
      assert p + n == n;
    } else if |p| >= |pat| && p[..|pat|] == pat {
      ReplaceSplits(p[|pat|..], n, pat, rep);
      SplitAfterMatch(p, n, pat, rep);
    } else if |p + n| >= |pat| {
      NoMatchAcrossBoundary(p, n, pat);
      ReplaceSplits(p[1..], n, pat, rep);
      SplitAfterMiss(p, n, pat, rep);
    }
  }

  /** One step of the split when `p` starts with `pat`. */
  lemma SplitAfterMatch(p: string, n: string, pat: string, rep: string)
    requires pat != [] && |p| >= |pat| && p[..|pat|] == pat
    requires ReplaceAll(p[|pat|..] + n, pat, rep) == ReplaceAll(p[|pat|..], pat, rep) + ReplaceAll(n, pat, rep)
    ensures ReplaceAll(p + n, pat, rep) == ReplaceAll(p, pat, rep) + ReplaceAll(n, pat, rep)
  {
    assert (p + n)[..|pat|] == pat;
    assert (p + n)[|pat|..] == p[|pat|..] + n;
    ConcatAssociates(rep, ReplaceAll(p[|pat|..], pat, rep), ReplaceAll(n, pat, rep));
  }

  /** One step of the split when `p + n` does not start with `pat`. */
  lemma SplitAfterMiss(p: string, n: string, pat: string, rep: string)
    requires pat != [] && p != [] && |p + n| >= |pat| && (p + n)[..|pat|] != pat
    requires |p| >= |pat| ==> p[..|pat|] != pat
    requires ReplaceAll(p[1..] + n, pat, rep) == ReplaceAll(p[1..], pat, rep) + ReplaceAll(n, pat, rep)
    ensures ReplaceAll(p + n, pat, rep) == ReplaceAll(p, pat, rep) + ReplaceAll(n, pat, rep)
  {
    UnfoldMiss(p + n, pat, rep);
    assert (p + n)[0] == p[0] && (p + n)[1..] == p[1..] + n;
    UnfoldHead(p, pat, rep);
    ConcatAssociates([p[0]], ReplaceAll(p[1..], pat, rep), ReplaceAll(n, pat, rep));
  }

  /** A non-empty string that does not start with `pat` keeps its first character. */
  lemma UnfoldHead(p: string, pat: string, rep: string)
    requires pat != [] && p != [] && (|p| >= |pat| ==> p[..|pat|] != pat)
    ensures ReplaceAll(p, pat, rep) == [p[0]] + ReplaceAll(p[1..], pat, rep)
  {
    if |p| >= |pat| {
      UnfoldMiss(p, pat, rep);
    } else {
      UnfoldShort(p, pat, rep);
    }
  }

  lemma ConcatAssociates(a: string, b: string, c: string)
    ensures a + (b + c) == (a + b) + c
  {
  }

  /** On a string too short to hold `pat`, `ReplaceAll` is the identity, and so on its tail. */
  lemma UnfoldShort(p: string, pat: string, rep: string)
    requires pat != [] && p != [] && |p| < |pat|
    ensures ReplaceAll(p, pat, rep) == [p[0]] + ReplaceAll(p[1..], pat, rep)
  {
    assert p == [p[0]] + p[1..];
  }

  /** `ReplaceAll` on a string that does not start with `pat` keeps its first character. */
  lemma UnfoldMiss(s: string, pat: string, rep: string)
    requires pat != [] && |s| >= |pat| && s[..|pat|] != pat
    ensures ReplaceAll(s, pat, rep) == [s[0]] + ReplaceAll(s[1..], pat, rep)
  {
  }

  /** A prefix that does not start with `pat` and ends outside `pat` leaves no match at the front of `p + n`. */
  lemma NoMatchAcrossBoundary(p: string, n: string, pat: string)
    requires pat != [] && p != [] && p[|p| - 1] !in pat
    requires !(|p| >= |pat| && p[..|pat|] == pat)
    ensures |p + n| >= |pat| ==> (p + n)[..|pat|] != pat
  {
    if |p + n| >= |pat| {
      if |p| >= |pat| {
        assert (p + n)[..|pat|] == p[..|pat|];
      } else {
        assert (p + n)[..|pat|][|p| - 1] == p[|p| - 1];
        assert pat[|p| - 1] in pat;
      }
    }
  }

  /** Where the record of a document named `fileName` is saved. */
  function HistoryPath(historyDir: string, fileName: string): string
  {
    ReplaceAll(PathJoin(historyDir, fileName), "pdf", "json")
  }

  /** Every history path is free of "pdf", the directory part included, and no shorter than the joined path. */
  lemma HistoryPathHasNoPdf(historyDir: string, fileName: string)
    ensures forall k :: !OccursAt(HistoryPath(historyDir, fileName), "pdf", k)
    ensures |HistoryPath(historyDir, fileName)| >= |PathJoin(historyDir, fileName)|
  {
    NoPdfAfterReplace(PathJoin(historyDir, fileName));
    ReplaceLength(PathJoin(historyDir, fileName), "pdf", "json");
  }

  /** "pdf.pdf" and "json.pdf" are saved to the same history file, whatever the directory. */
  lemma HistoryPathsCollide(historyDir: string)
    ensures HistoryPath(historyDir, "pdf.pdf") == HistoryPath(historyDir, "json.pdf")
  {
    var prefix := if historyDir == [] || historyDir[|historyDir| - 1] == '/' then historyDir else historyDir + "/";
    assert !Common.StartsWith("pdf.pdf", "/") by { assert "pdf.pdf"[..1][0] == 'p'; }
    assert !Common.StartsWith("json.pdf", "/") by { assert "json.pdf"[..1][0] == 'j'; }
    assert PathJoin(historyDir, "pdf.pdf") == prefix + "pdf.pdf";
    assert PathJoin(historyDir, "json.pdf") == prefix + "json.pdf";
    ReplaceSplits(prefix, "pdf.pdf", "pdf", "json");
    ReplaceSplits(prefix, "json.pdf", "pdf", "json");
    CollidingNames();
  }

  /** Both names become "json.json". */
  lemma CollidingNames()
    ensures ReplaceAll("pdf.pdf", "pdf", "json") == "json.json"
    ensures ReplaceAll("json.pdf", "pdf", "json") == "json.json"
  {
    PdfDotPdf();
    JsonDotPdf();
  }

  lemma PdfDotPdf()
    ensures ReplaceAll("pdf.pdf", "pdf", "json") == "json.json"
  {
    DotPdfBecomesDotJson();
    assert "pdf.pdf"[..3] == "pdf" && "pdf.pdf"[3..] == ".pdf";
    UnfoldMatch("pdf.pdf", "pdf", "json");
    assert "json" + ".json" == "json.json";
  }

  lemma JsonDotPdf()
    ensures ReplaceAll("json.pdf", "pdf", "json") == "json.json"
  {
    SonDotPdf();
    KeepsHead("json.pdf", 'j', "son.pdf");
  }

  lemma SonDotPdf()
    ensures ReplaceAll("son.pdf", "pdf", "json") == "son.json"
  {
    OnDotPdf();
    KeepsHead("son.pdf", 's', "on.pdf");
  }

  lemma OnDotPdf()
    ensures ReplaceAll("on.pdf", "pdf", "json") == "on.json"
  {
    NDotPdf();
    KeepsHead("on.pdf", 'o', "n.pdf");
  }

  lemma NDotPdf()
    ensures ReplaceAll("n.pdf", "pdf", "json") == "n.json"
  {
    DotPdfBecomesDotJson();
    KeepsHead("n.pdf", 'n', ".pdf");
  }

  /** ".pdf" becomes ".json". */
  lemma DotPdfBecomesDotJson()
    ensures ReplaceAll(".pdf", "pdf", "json") == ".json"
  {
    KeepsHead(".pdf", '.', "pdf");
    assert "pdf"[..3] == "pdf" && "pdf"[3..] == [];
    UnfoldMatch("pdf", "pdf", "json");
  }

  /** A string starting with a character other than 'p' keeps it in front of the replaced rest. */
  lemma KeepsHead(s: string, c: char, t: string)
    requires s == [c] + t && c != 'p'
    ensures ReplaceAll(s, "pdf", "json") == [c] + ReplaceAll(t, "pdf", "json")
  {
    if |s| >= 3 {
      assert s[..3][0] == c;
      UnfoldMiss(s, "pdf", "json");
      assert s[1..] == t;
    } else {
      UnfoldShort(s, "pdf", "json");
      assert s[1..] == t;
    }
  }

  /** `ReplaceAll` on a string that starts with `pat` emits `rep` and goes on after the occurrence. */
  lemma UnfoldMatch(s: string, pat: string, rep: string)
    requires pat != [] && |s| >= |pat| && s[..|pat|] == pat
    ensures ReplaceAll(s, pat, rep) == rep + ReplaceAll(s[|pat|..], pat, rep)
  {
  }

  function SavedHistory(history: Option<seq<LcMessage>>): seq<SavedMessage>
  {
    if history.None? then []
    else seq(|history.value|, k requires 0 <= k < |history.value| => SavedMessage(history.value[k].msgType, history.value[k].content))
  }

  /** What the serialising loop produces is the saved chat history. */
  lemma SerializedIsSaved(history: Option<seq<LcMessage>>, saved: seq<SavedMessage>)
    requires history.None? ==> saved == []
    requires history.Some? ==>
               |saved| == |history.value|
               && forall k :: 0 <= k < |saved| ==>
                    saved[k].role == history.value[k].msgType && saved[k].message == history.value[k].content
    ensures saved == SavedHistory(history)
  {
  }

  /** The record saved for a document: its file and model fields and its serialised chat. */
  function SavedRecord(doc: DocConfig): (r: SavedDoc)
    requires doc.fileName.Some?
    ensures r.fileName == doc.fileName.value && r.llmName == doc.llmName
            && r.embeddingModelName == doc.embeddingModelName && r.lanuage == doc.lanuage
    ensures |r.chatHistory| == if doc.chatHistory.Some? then |doc.chatHistory.value| else 0
  {
    SavedDoc(doc.fileName.value, doc.tmpFilePath, doc.lanuage, doc.embeddingModelName,
             doc.llmName, doc.vectorCachePath, SavedHistory(doc.chatHistory))
  }

  /** The chat-history loop of `save_current_doc`: one `{role, message}` entry per message, in order. */
  method SerializeChatHistory(history: Option<seq<LcMessage>>) returns (saved: seq<SavedMessage>)
    ensures history.None? ==> saved == []
    ensures history.Some? ==>
              |saved| == |history.value|
              && forall k :: 0 <= k < |saved| ==>
                   saved[k].role == history.value[k].msgType && saved[k].message == history.value[k].content
  {
    saved := [];
    if history.Some? && |history.value| > 0 {
      for i := 0 to |history.value|
        invariant |saved| == i
        invariant forall k :: 0 <= k < i ==>
                    saved[k] == SavedMessage(history.value[k].msgType, history.value[k].content)
      {
        var message := history.value[i];
        saved := saved + [SavedMessage(message.msgType, message.content)];
      }
    }
  }

  /**
   * `save_current_doc`: without a file there is nothing to save; otherwise the
   * record is written to its history path, unless the write raises
   * (`writeError`), which is reported and leaves the history as it was.
   */
  method SaveCurrentDoc(backend: Backend, doc: DocConfig, writeError: Option<string>)
    returns (result: InvokeResponse)
    modifies backend`historyFiles
    ensures result.source == "save_current_doc"
    ensures doc.fileName.None? ==>
              result == InvokeResponse("save_current_doc", true, "没有文件。", None)
              && backend.historyFiles == old(backend.historyFiles)
    ensures doc.fileName.Some? && writeError.None? ==>
              var path := HistoryPath(backend.historyDir, doc.fileName.value);
              result == InvokeResponse("save_current_doc", true, "已保存上一文档记录！",
                                       Some(map["save_path" := PyStr("成功保存聊天记录到" + path)]))
              && backend.historyFiles == old(backend.historyFiles)[path := SavedRecord(doc)]
    ensures doc.fileName.Some? && writeError.Some? ==>
              result == InvokeResponse("save_current_doc", false, writeError.value,
                                       Some(map["error" := PyError(writeError.value)]))
              && backend.historyFiles == old(backend.historyFiles)
  {
    result := InvokeResponse("save_current_doc", true, "已保存上一文档记录！", None);
    if doc.fileName.Some? {
      var savePath := HistoryPath(backend.historyDir, doc.fileName.value);
      var chatHistory := SerializeChatHistory(doc.chatHistory);
      SerializedIsSaved(doc.chatHistory, chatHistory);
      var saveData := SavedDoc(doc.fileName.value, doc.tmpFilePath, doc.lanuage, doc.embeddingModelName,
                               doc.llmName, doc.vectorCachePath, chatHistory);
      if writeError.None? {
        backend.historyFiles := backend.historyFiles[savePath := saveData];
        result := result.(additionArgs := Some(map["save_path" := PyStr("成功保存聊天记录到" + savePath)]));
      } else {
        result := result.(state := false, message := writeError.value,
                          additionArgs := Some(map["error" := PyError(writeError.value)]));
      }
    } else {
      result := result.(message := "没有文件。");
    }
  }

  /** `save_tmp_upload_file`: a named file is stored under the temporary directory. */
  method SaveTmpUploadFile(backend: Backend, file: UploadFile) returns (result: InvokeResponse)
    modifies backend`tempFiles
    ensures file.filename.None? ==>
              result == InvokeResponse("save_tmp_upload_file", false, "上传的文件没有文件名！", None)
              && backend.tempFiles == old(backend.tempFiles)
    ensures file.filename.Some? ==>
              var path := PathJoin(backend.tempDir, file.filename.value);
              result == InvokeResponse("save_tmp_upload_file", true, "成功缓存文件！",
                                       Some(map["tmp_file_path" := PyStr(path)]))
              && backend.tempFiles == old(backend.tempFiles)[path := file.content]
  {
    result := InvokeResponse("save_tmp_upload_file", true, "成功缓存文件！", None);
    if file.filename.Some? {
      var tmpPath := PathJoin(backend.tempDir, file.filename.value);
      backend.tempFiles := backend.tempFiles[tmpPath := file.content];
      result := result.(additionArgs := Some(map["tmp_file_path" := PyStr(tmpPath)]));
    } else {
      result := result.(state := false, message := "上传的文件没有文件名！");
    }
  }

  const SAME_FILE_MESSAGE := "上传文件与当前文件同名，视为相同，后端不再更新文件和向量库！"

  /** `save_last_file_result`: True when the previous record was saved (or there was none), else the error. */
  function SaveOutcome(previous: Option<string>, writeError: Option<string>): (v: PyValue)
    ensures v == PyBool(true) <==> previous.None? || writeError.None?
    ensures previous.Some? && writeError.Some? ==> v == PyStr("save_current_doc: " + writeError.value)
  {
    if previous.Some? && writeError.Some? then PyStr("save_current_doc: " + writeError.value) else PyBool(true)
  }

  /** The failure message of a nameless upload, prefixed with the step that failed. */
  lemma NamelessUploadMessage()
    ensures "save_tmp_upload_file" + ": " + "上传的文件没有文件名！" == "save_tmp_upload_file: 上传的文件没有文件名！"
  {
  }

  /**
   * `upload`. The same name as the current document (two missing names included)
   * changes nothing. Otherwise the previous record is saved, the session is reset
   * to its defaults, and the upload becomes the current document; a file without
   * a name fails after the reset, so the previous session is gone.
   */
  method Upload(backend: Backend, file: UploadFile, historyWriteError: Option<string>)
    returns (result: InvokeResponse)
    modifies backend`config, backend`tempFiles, backend`historyFiles
    ensures result.source == "upload"
    ensures file.filename == old(backend.config.fileName) ==>
              result == InvokeResponse("upload", true, SAME_FILE_MESSAGE,
                          Some(map["file_name" := OptStr(old(backend.config.fileName)),
                                   "tmp_file_path" := OptStr(old(backend.config.tmpFilePath))]))
              && backend.config == old(backend.config)
              && backend.tempFiles == old(backend.tempFiles)
              && backend.historyFiles == old(backend.historyFiles)
    ensures file.filename != old(backend.config.fileName) ==>
              backend.historyFiles ==
                if old(backend.config.fileName).Some? && historyWriteError.None?
                then old(backend.historyFiles)[HistoryPath(backend.historyDir, old(backend.config.fileName).value)
                                                 := SavedRecord(old(backend.config))]
                else old(backend.historyFiles)
    ensures file.filename != old(backend.config.fileName) && file.filename.None? ==>
              result == InvokeResponse("upload", false, "save_tmp_upload_file: 上传的文件没有文件名！", None)
              && backend.config == DefaultDocConfig()
              && backend.tempFiles == old(backend.tempFiles)
    ensures file.filename != old(backend.config.fileName) && file.filename.Some? ==>
              var path := PathJoin(backend.tempDir, file.filename.value);
              result == InvokeResponse("upload", true, "上传成功！",
                          Some(map["file_name" := PyStr(file.filename.value),
                                   "tmp_file_path" := PyStr(path),
                                   "save_last_file_result" := SaveOutcome(old(backend.config.fileName), historyWriteError)]))
              && backend.config == DefaultDocConfig().(fileName := file.filename, tmpFilePath := Some(path))
              && backend.tempFiles == old(backend.tempFiles)[path := file.content]
  {
    result := InvokeResponse("upload", true, "上传成功！", None);
    if file.filename == backend.config.fileName {
      result := result.(message := SAME_FILE_MESSAGE,
                        additionArgs := Some(map["file_name" := OptStr(backend.config.fileName),
                                                 "tmp_file_path" := OptStr(backend.config.tmpFilePath)]));
      return;
    }
    ghost var previous := backend.config;
    ghost var savedHistory :=
      if previous.fileName.Some? && historyWriteError.None?
      then backend.historyFiles[HistoryPath(backend.historyDir, previous.fileName.value) := SavedRecord(previous)]
      else backend.historyFiles;
    var saveResult := SaveCurrentDoc(backend, backend.config, historyWriteError);
    assert backend.historyFiles == savedHistory;
    assert saveResult.state <==> previous.fileName.None? || historyWriteError.None?;
    backend.InitDocConfig();
    var tmpResult := SaveTmpUploadFile(backend, file);
    assert backend.historyFiles == savedHistory;
    var tmpPath: string;
    if tmpResult.state && tmpResult.additionArgs.Some? {
      tmpPath := tmpResult.additionArgs.value["tmp_file_path"].s;
    } else {
      assert tmpResult == InvokeResponse("save_tmp_upload_file", false, "上传的文件没有文件名！", None);
      NamelessUploadMessage();
      result := result.(state := false, message := tmpResult.source + ": " + tmpResult.message);
      return;
    }
    backend.config := backend.config.(fileName := file.filename, tmpFilePath := Some(tmpPath));
    assert tmpPath == PathJoin(backend.tempDir, file.filename.value);
    assert OptStr(backend.config.fileName) == PyStr(file.filename.value);
    var saveLastFileResult := if saveResult.state then PyBool(true) else PyStr(saveResult.source + ": " + saveResult.message);
    result := result.(additionArgs := Some(map["file_name" := OptStr(backend.config.fileName),
                                               "tmp_file_path" := PyStr(tmpPath),
                                               "save_last_file_result" := saveLastFileResult]));
    assert saveLastFileResult == SaveOutcome(previous.fileName, historyWriteError);
  }

  /**
   * Uploading "a.pdf" and then "b.pdf" into a fresh backend: the second upload
   * saves the record of "a.pdf" and leaves "b.pdf" current.
   */
  method TwoUploadsScenario(tempDir: string, historyDir: string)
  {
    var backend := new Backend(tempDir, historyDir);
    var first := Upload(backend, UploadFile(Some("a.pdf"), 1), None);
    assert first.state && backend.config.fileName == Some("a.pdf");
    var second := Upload(backend, UploadFile(Some("b.pdf"), 2), None);
    assert second.state && backend.config.fileName == Some("b.pdf");
    assert backend.historyFiles[HistoryPath(historyDir, "a.pdf")].fileName == "a.pdf";
    var again := Upload(backend, UploadFile(Some("b.pdf"), 3), None);
    assert again.message == SAME_FILE_MESSAGE;
    assert backend.tempFiles[PathJoin(tempDir, "b.pdf")] == 2;
  }
}
