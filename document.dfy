/**
 * The document panel: a fresh upload replaces the active document and resets the
 * fields that depend on it, re-selecting a history entry only patches the file
 * fields, and the history keeps one entry per file name in upload order.
 */
module Document {
  import opened Wrappers
  import opened Common
  import Page

  /** `history.some(f => f.name === name)` */
  predicate HasName(history: seq<FileRef>, name: string)
  {
    exists f :: f in history && f.name == name
  }

  predicate NamesDistinct(history: seq<FileRef>)
  {
    forall i, j :: 0 <= i < j < |history| ==> history[i].name != history[j].name
  }

  /** The history after an accepted upload of `file`: appended at the end only when its name is new. */
  function AddIfAbsent(history: seq<FileRef>, file: FileRef): (r: seq<FileRef>)
    ensures HasName(r, file.name)
    ensures HasName(history, file.name) ==> r == history
    ensures !HasName(history, file.name) ==> r == history + [file]
    ensures NamesDistinct(history) ==> NamesDistinct(r)
  {
    if HasName(history, file.name) then history
    else
      var r := history + [file];
      assert r[|history|] == file;
      r
  }

  function UploadRequest(file: FileRef): Request
  {
    Request("api/upload", Form([file]), Some(1000))
  }

  /** The reply is used only when `state` holds and both file fields are strings. */
  predicate UploadAccepted(response: RequestMessage)
  {
    response.state
    && StringArg(response.additionArgs, "file_name").Some?
    && StringArg(response.additionArgs, "tmp_file_path").Some?
  }

  class Panel {
    var uploadingFlag: bool
    const session: Page.Session

    constructor (session: Page.Session)
      ensures this.session == session && !uploadingFlag
    {
      this.session := session;
      uploadingFlag := false;
    }

    /** The upload input is disabled while a request is pending. */
    predicate UploadDisabled()
      reads this
    {
      uploadingFlag
    }

    /** The history entry naming the open document is rendered disabled. */
    predicate EntryDisabled(index: nat)
      reads this, session
      requires index < |session.docsHistory|
    {
      session.config.fileName == session.docsHistory[index].name
    }

    /** The part of `handleFileChange` before its await. */
    method BeginFileChange(files: Option<seq<FileRef>>) returns (request: Option<Request>)
      modifies this`uploadingFlag
      ensures files.None? || files.value == [] ==> request.None? && uploadingFlag == old(uploadingFlag)
      ensures files.Some? && files.value != [] ==>
                uploadingFlag && UploadDisabled() && request == Some(UploadRequest(files.value[0]))
    {
      if files.None? || |files.value| == 0 {
        return None;
      }
      uploadingFlag := true;
      request := Some(UploadRequest(files.value[0]));
    }

    /**
     * The part after the await: an accepted reply replaces the file fields from the
     * reply, clears language, embedding flag and chat, keeps the model settings of
     * `snapshot`, and records a file with a new name; a rejected reply changes nothing.
     */
    method CompleteFileChange(file: FileRef, snapshot: DocConfig, response: RequestMessage)
      modifies this`uploadingFlag, session
      ensures !uploadingFlag
      ensures UploadAccepted(response) ==>
                session.config == snapshot.(
                  fileName := StringArg(response.additionArgs, "file_name").value,
                  tmpFilePath := StringArg(response.additionArgs, "tmp_file_path").value,
                  lanuage := "", isEmbedded := false, chatHistory := [])
                && session.docsHistory == AddIfAbsent(old(session.docsHistory), file)
      ensures !UploadAccepted(response) ==>
                session.config == old(session.config) && session.docsHistory == old(session.docsHistory)
    {
      var name := StringArg(response.additionArgs, "file_name");
      var path := StringArg(response.additionArgs, "tmp_file_path");
      if response.state && name.Some? && path.Some? {
        session.config := snapshot.(fileName := name.value, tmpFilePath := path.value,
                                    lanuage := "", isEmbedded := false, chatHistory := []);
        if !HasName(session.docsHistory, file.name) {
          session.docsHistory := session.docsHistory + [file];
        }
      }
      uploadingFlag := false;
    }

    /** The whole fresh-upload handler, from the state it starts in and the backend's reply. */
    method HandleFileChange(files: Option<seq<FileRef>>, response: RequestMessage)
      returns (request: Option<Request>)
      modifies this`uploadingFlag, session
      ensures files.None? || files.value == [] ==>
                request.None? && uploadingFlag == old(uploadingFlag)
                && session.config == old(session.config) && session.docsHistory == old(session.docsHistory)
      ensures files.Some? && files.value != [] ==>
                request == Some(UploadRequest(files.value[0])) && !uploadingFlag
      ensures files.Some? && files.value != [] && UploadAccepted(response) ==>
                session.config.fileName == StringArg(response.additionArgs, "file_name").value
                && session.config.tmpFilePath == StringArg(response.additionArgs, "tmp_file_path").value
                && session.config.lanuage == "" && !session.config.isEmbedded
                && session.config.chatHistory == []
                && session.config.embeddingModelName == old(session.config.embeddingModelName)
                && session.config.embeddingModelApiKey == old(session.config.embeddingModelApiKey)
                && session.config.llmName == old(session.config.llmName)
                && session.config.llmApiKey == old(session.config.llmApiKey)
                && session.docsHistory == AddIfAbsent(old(session.docsHistory), files.value[0])
      ensures !UploadAccepted(response) ==>
                session.config == old(session.config) && session.docsHistory == old(session.docsHistory)
      ensures NamesDistinct(old(session.docsHistory)) ==> NamesDistinct(session.docsHistory)
    {
      var snapshot := session.config;
      request := BeginFileChange(files);
      if request.Some? {
        CompleteFileChange(files.value[0], snapshot, response);
      }
    }

    /** The part of `handleClickHistoryFile` before its await; the index comes from the rendered list. */
    method BeginHistoryFile(index: nat) returns (request: Request)
      requires index < |session.docsHistory|
      modifies this`uploadingFlag
      ensures uploadingFlag && request == UploadRequest(session.docsHistory[index])
    {
      uploadingFlag := true;
      request := UploadRequest(session.docsHistory[index]);
    }

    /** The part after the await: only the two file fields are patched; the history is untouched. */
    method CompleteHistoryFile(snapshot: DocConfig, response: RequestMessage)
      modifies this`uploadingFlag, session`config
      ensures !uploadingFlag
      ensures UploadAccepted(response) ==>
                session.config == snapshot.(
                  fileName := StringArg(response.additionArgs, "file_name").value,
                  tmpFilePath := StringArg(response.additionArgs, "tmp_file_path").value)
      ensures !UploadAccepted(response) ==> session.config == old(session.config)
    {
      var name := StringArg(response.additionArgs, "file_name");
      var path := StringArg(response.additionArgs, "tmp_file_path");
      if response.state && name.Some? && path.Some? {
        session.config := snapshot.(fileName := name.value, tmpFilePath := path.value);
      }
      uploadingFlag := false;
    }

    /** The whole history re-select handler: language, embedding flag and chat survive the switch. */
    method HandleClickHistoryFile(index: nat, response: RequestMessage) returns (request: Request)
      requires index < |session.docsHistory|
      modifies this`uploadingFlag, session`config
      ensures request == UploadRequest(old(session.docsHistory)[index]) && !uploadingFlag
      ensures session.docsHistory == old(session.docsHistory)
      ensures UploadAccepted(response) ==>
                session.config.fileName == StringArg(response.additionArgs, "file_name").value
                && session.config.tmpFilePath == StringArg(response.additionArgs, "tmp_file_path").value
                && session.config.(fileName := "", tmpFilePath := "")
                   == old(session.config).(fileName := "", tmpFilePath := "")
      ensures !UploadAccepted(response) ==> session.config == old(session.config)
    {
      var snapshot := session.config;
      request := BeginHistoryFile(index);
      CompleteHistoryFile(snapshot, response);
    }

    /** A click on a history entry: the entry of the open document is disabled and does nothing. */
    method ClickHistoryEntry(index: nat, response: RequestMessage) returns (request: Option<Request>)
      requires index < |session.docsHistory|
      modifies this`uploadingFlag, session`config
      ensures old(EntryDisabled(index)) ==>
                request.None? && uploadingFlag == old(uploadingFlag) && session.config == old(session.config)
      ensures !old(EntryDisabled(index)) ==>
                request == Some(UploadRequest(session.docsHistory[index])) && !uploadingFlag
      ensures !old(EntryDisabled(index)) && UploadAccepted(response) ==>
                session.config.fileName == StringArg(response.additionArgs, "file_name").value
                && session.config.tmpFilePath == StringArg(response.additionArgs, "tmp_file_path").value
                && session.config.(fileName := "", tmpFilePath := "")
                   == old(session.config).(fileName := "", tmpFilePath := "")
      ensures !UploadAccepted(response) ==> session.config == old(session.config)
      ensures session.docsHistory == old(session.docsHistory)
    {
      if EntryDisabled(index) {
        return None;
      }
      var r := HandleClickHistoryFile(index, response);
      request := Some(r);
    }
  }

  /** Uploading "report.pdf" into a fresh session, as the client sees the reply. */
  method UploadScenario(session: Page.Session, file: FileRef)
    requires session.docsHistory == [] && file.name == "report.pdf"
    modifies session
  {
    var panel := new Panel(session);
    var reply := RequestMessage("upload", true, "",
      map["file_name" := StrArg("report.pdf"), "tmp_file_path" := StrArg("files/Temp/report.pdf")]);
    var request := panel.HandleFileChange(Some([file]), reply);
    assert UploadAccepted(reply);
    assert session.config.fileName == "report.pdf";
    assert session.config.tmpFilePath == "files/Temp/report.pdf";
    assert !session.config.isEmbedded && session.config.chatHistory == [];
    assert session.docsHistory == [file];
  }
}
