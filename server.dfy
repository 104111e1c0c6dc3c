/**
 * The decision logic of the backend: the `POST /save-to-drive` handler, run
 * against an abstract Drive upstream that answers from a script and logs
 * every call it receives, and the three outcomes of `GET /auth/logout`.
 */
module Server {
  import opened JsText

  // ---------------------------------------------------------------------------
  // Fixed strings of the Drive calls
  // ---------------------------------------------------------------------------

  const FolderName: string := "Letters"
  const FolderMimeType: string := "application/vnd.google-apps.folder"
  const DocumentMimeType: string := "application/vnd.google-apps.document"
  const FolderQuery: string := "name='Letters' and mimeType='application/vnd.google-apps.folder'"
  const FolderFields: string := "files(id, name)"
  const LetterPrefix: string := "Letter_"
  const HtmlOpen: string := "<html><body><p>"
  const HtmlClose: string := "</p></body></html>"

  /** The Authorization header every upstream call carries: the `Bearer`
      scheme, one space, then the token unchanged, so distinct tokens give
      distinct headers. */
  function Bearer(accessToken: string): (h: string)
    ensures |h| == 7 + |accessToken| && h[..7] == "Bearer " && h[7..] == accessToken
  {
    "Bearer " + accessToken
  }

  // ---------------------------------------------------------------------------
  // Data
  // ---------------------------------------------------------------------------

  /** The session's user record; only the delegated token matters here. */
  datatype User = User(accessToken: string)

  /** One entry of the folder listing. A missing id and an empty id are both
      falsy in the handler and are both written "". */
  datatype FileRef = FileRef(id: string)

  /** What an awaited upstream call yields: its response data, or the message
      of the error it rejects with (network error or non-2xx status). */
  datatype Reply<T> = Ok(data: T) | Err(message: string)

  /** The JSON metadata part of the multipart upload. */
  datatype Metadata = Metadata(name: string, mimeType: string, parents: seq<string>)

  /** A call issued to the Drive upstream, with the arguments that matter. */
  datatype Call =
    | ListFiles(authorization: string, q: string, fields: string)
    | CreateFolder(authorization: string, name: string, mimeType: string)
    | UploadFile(authorization: string, metadata: Metadata, html: string)

  /** Why the handler answered 500: an upstream call rejected with `message`,
      or `content` in the request body was not a string, so `content.replace`
      threw a TypeError (its text is the JavaScript engine's). */
  datatype Failure = UpstreamFailure(message: string) | ContentNotText

  /** The handler's answer: 401 `{error: 'Unauthorized'}`, 500 `{error}`, or
      the upload's response data relayed as the 200 body. */
  datatype Response = Unauthorized | ServerError(failure: Failure) | Relayed(data: string)

  function Status(r: Response): int {
    match r
    case Unauthorized => 401
    case ServerError(_) => 500
    case Relayed(_) => 200
  }

  // ---------------------------------------------------------------------------
  // The HTML body and the upload metadata
  // ---------------------------------------------------------------------------

  /** The uploaded HTML: the content, newlines turned into `<br>`, inside a
      fixed paragraph. The result has no newline left, its middle is exactly
      the content after `ReplaceNewlines` (pinned down by that function's own
      lemmas), and every other character of the content reaches it unescaped. */
  function WrapHtml(content: string): (html: string)
    ensures '\n' !in html
    ensures |html| >= |HtmlOpen| + |HtmlClose|
    ensures html[..|HtmlOpen|] == HtmlOpen && html[|html| - |HtmlClose|..] == HtmlClose
    ensures html[|HtmlOpen|..|html| - |HtmlClose|] == ReplaceNewlines(content)
    ensures '\n' !in content ==> html[|HtmlOpen|..|html| - |HtmlClose|] == content
  {
    var body := ReplaceNewlines(content);
    ConcatParts(HtmlOpen, body, HtmlClose);
    HtmlOpen + body + HtmlClose
  }

  /** The three parts of a concatenation can be sliced back out of it. */
  lemma ConcatParts(a: string, b: string, c: string)
    ensures var s := a + b + c;
            && s[..|a|] == a && s[|s| - |c|..] == c && s[|a|..|s| - |c|] == b
  {
    var s := a + b + c;
    assert s[..|a|] == a;
    assert s[|s| - |c|..] == c;
    assert s[|a|..|s| - |c|] == b;
  }

  /** Inverse reading of an uploaded body: strip the paragraph and turn every
      `<br>` back into a newline; `None` for a body of another shape. */
  function UnwrapHtml(html: string): Option<string> {
    if |html| >= |HtmlOpen| + |HtmlClose|
       && html[..|HtmlOpen|] == HtmlOpen && html[|html| - |HtmlClose|..] == HtmlClose
    then Some(RestoreNewlines(html[|HtmlOpen|..|html| - |HtmlClose|]))
    else None
  }

  /** Content without a literal `<br>` is recovered from its uploaded body. */
  lemma WrapHtmlRoundTrip(content: string)
    requires !HasBreakTag(content)
    ensures UnwrapHtml(WrapHtml(content)) == Some(content)
  {
    var html := WrapHtml(content);
    assert html[|HtmlOpen|..|html| - |HtmlClose|] == ReplaceNewlines(content);
    RestoreReplaceNewlines(content);
  }

  /** The name `Letter_<milliseconds>` given to every uploaded file. */
  function LetterName(now: nat): (name: string)
    ensures |name| > |LetterPrefix| && name[..|LetterPrefix|] == LetterPrefix
    ensures IsCanonicalNumeral(name[|LetterPrefix|..])
  {
    LetterPrefix + Decimal(now)
  }

  /** The timestamp a letter name was made from, if it is one: the prefix
      followed by a canonical numeral, as `${Date.now()}` writes it. */
  function LetterTimestamp(name: string): Option<nat> {
    if |name| > |LetterPrefix| && name[..|LetterPrefix|] == LetterPrefix
       && IsCanonicalNumeral(name[|LetterPrefix|..])
    then Some(DecimalValue(name[|LetterPrefix|..]))
    else None
  }

  /** The timestamp is recoverable from the name, so two uploads get the same
      name only when the clock gave the same reading twice. */
  lemma LetterNameRoundTrip(now: nat)
    ensures LetterTimestamp(LetterName(now)) == Some(now)
  {
    assert LetterName(now)[|LetterPrefix|..] == Decimal(now);
    DecimalValueOfDecimal(now);
  }

  /** Only one name decodes to a given reading: the one the handler makes. */
  lemma LetterTimestampDeterminesName(name: string, now: nat)
    requires LetterTimestamp(name) == Some(now)
    ensures name == LetterName(now)
  {
    var digits := name[|LetterPrefix|..];
    DecimalOfDecimalValue(digits);
    assert name == name[..|LetterPrefix|] + digits;
  }

  lemma LetterNameInjective(a: nat, b: nat)
    requires a != b
    ensures LetterName(a) != LetterName(b)
  {
    LetterNameRoundTrip(a);
    LetterNameRoundTrip(b);
  }

  /** The metadata part: a letter name, the native document type, and the
      resolved folder as the only parent. */
  function UploadMetadata(folderId: string, now: nat): (m: Metadata)
    ensures m.mimeType == DocumentMimeType && m.parents == [folderId]
    ensures LetterTimestamp(m.name) == Some(now)
  {
    LetterNameRoundTrip(now);
    Metadata(LetterName(now), DocumentMimeType, [folderId])
  }

  // ---------------------------------------------------------------------------
  // The handler as a function of its inputs and the upstream's replies
  // ---------------------------------------------------------------------------

  /** The calls made and the answer given by one run of the handler. */
  datatype Outcome = Outcome(calls: seq<Call>, response: Response)

  /** The folder id the listing names: the first entry's id, or "" (falsy)
      when the listing is empty. */
  function ListedFolderId(files: seq<FileRef>): (id: string)
    ensures id != "" <==> |files| > 0 && files[0].id != ""
    ensures id != "" ==> id == files[0].id
  {
    if |files| > 0 then files[0].id else ""
  }

  /** The calls issued while deciding `folderId`, and that decision. */
  datatype FolderStep = FolderStep(calls: seq<Call>, folder: Reply<string>)

  /** Folder resolution: a truthy listed id is used as it is; otherwise one
      `Letters` folder is created and its id is used. */
  function ResolveFolder(authorization: string, files: seq<FileRef>, createReply: Reply<string>): (r: FolderStep)
    ensures |r.calls| <= 1
    ensures r.calls == [] <==> ListedFolderId(files) != ""
    ensures r.calls == [] ==> r.folder.Ok? && r.folder.data != "" && r.folder.data == ListedFolderId(files)
    ensures r.calls != [] ==> r.calls[0] == CreateFolder(authorization, FolderName, FolderMimeType)
                              && r.folder == createReply
  {
    var listed := ListedFolderId(files);
    if listed != "" then FolderStep([], Ok(listed))
    else FolderStep([CreateFolder(authorization, FolderName, FolderMimeType)], createReply)
  }

  /** One run of `POST /save-to-drive` for the session's user, the request's
      `content`, the clock reading `now`, and the upstream's three replies. */
  function SaveOutcome(user: Option<User>, content: Option<string>, now: nat,
                       listReply: Reply<seq<FileRef>>, createReply: Reply<string>,
                       uploadReply: Reply<string>): (o: Outcome)
    ensures |o.calls| <= 3
    ensures o.response.Unauthorized? <==> user.None?
    ensures user.None? <==> o.calls == []
    ensures o.response.Relayed? ==> uploadReply.Ok? && o.response.data == uploadReply.data
    ensures o.response.Relayed? ==> o.calls != [] && o.calls[|o.calls| - 1].UploadFile?
  {
    match user
    case None => Outcome([], Unauthorized)
    case Some(u) =>
      var auth := Bearer(u.accessToken);
      var list := ListFiles(auth, FolderQuery, FolderFields);
      match listReply
      case Err(m) => Outcome([list], ServerError(UpstreamFailure(m)))
      case Ok(files) =>
        var step := ResolveFolder(auth, files, createReply);
        var before := [list] + step.calls;
        match step.folder
        case Err(m) => Outcome(before, ServerError(UpstreamFailure(m)))
        case Ok(folderId) =>
          match content
          case None => Outcome(before, ServerError(ContentNotText))
          case Some(text) =>
            var upload := UploadFile(auth, UploadMetadata(folderId, now), WrapHtml(text));
            match uploadReply
            case Err(m) => Outcome(before + [upload], ServerError(UpstreamFailure(m)))
            case Ok(data) => Outcome(before + [upload], Relayed(data))
  }

  // ---------------------------------------------------------------------------
  // The upstream and the handler as they run
  // ---------------------------------------------------------------------------

  /** The Drive upstream: it answers each kind of call from its script and
      records every call it receives, in order. */
  class Upstream {
    const listReply: Reply<seq<FileRef>>
    const createReply: Reply<string>
    const uploadReply: Reply<string>
    var log: seq<Call>

    constructor (listReply: Reply<seq<FileRef>>, createReply: Reply<string>, uploadReply: Reply<string>)
      ensures this.listReply == listReply && this.createReply == createReply
      ensures this.uploadReply == uploadReply
      ensures log == []
    {
      this.listReply := listReply;
      this.createReply := createReply;
      this.uploadReply := uploadReply;
      log := [];
    }

    /** `GET drive/v3/files` with a search query and a field selection. */
    method GetFiles(authorization: string, q: string, fields: string) returns (r: Reply<seq<FileRef>>)
      modifies this
      ensures log == old(log) + [ListFiles(authorization, q, fields)]
      ensures r == listReply
    {
      log := log + [ListFiles(authorization, q, fields)];
      r := listReply;
    }

    /** `POST drive/v3/files` with a JSON body naming the folder. */
    method PostFolder(authorization: string, name: string, mimeType: string) returns (r: Reply<string>)
      modifies this
      ensures log == old(log) + [CreateFolder(authorization, name, mimeType)]
      ensures r == createReply
    {
      log := log + [CreateFolder(authorization, name, mimeType)];
      r := createReply;
    }

    /** `POST upload/drive/v3/files?uploadType=multipart` with the metadata
        part and the HTML part. */
    method PostUpload(authorization: string, metadata: Metadata, html: string) returns (r: Reply<string>)
      modifies this
      ensures log == old(log) + [UploadFile(authorization, metadata, html)]
      ensures r == uploadReply
    {
      log := log + [UploadFile(authorization, metadata, html)];
      r := uploadReply;
    }
  }

  /** The `POST /save-to-drive` handler. */
  method SaveToDrive(up: Upstream, user: Option<User>, content: Option<string>, now: nat)
    returns (response: Response)
    modifies up
    ensures var o := SaveOutcome(user, content, now, up.listReply, up.createReply, up.uploadReply);
            up.log == old(up.log) + o.calls && response == o.response
  {
    if user.None? {
      return Unauthorized;
    }
    var accessToken := user.value.accessToken;
    var auth := Bearer(accessToken);

    // Step 1: look for the folder.
    var folderQuery := up.GetFiles(auth, FolderQuery, FolderFields);
    if folderQuery.Err? {
      return ServerError(UpstreamFailure(folderQuery.message));
    }
    var files := folderQuery.data;
    var folderId := if |files| > 0 then files[0].id else "";

    // Step 2: create it when no truthy id came back.
    if folderId == "" {
      var folderResponse := up.PostFolder(auth, FolderName, FolderMimeType);
      if folderResponse.Err? {
        return ServerError(UpstreamFailure(folderResponse.message));
      }
      folderId := folderResponse.data;
    }

    // Step 3: the HTML body; `content.replace` throws unless content is a string.
    if content.None? {
      return ServerError(ContentNotText);
    }
    var htmlContent := WrapHtml(content.value);

    // Steps 4 and 5: the metadata part and the upload.
    var metadata := UploadMetadata(folderId, now);
    var uploaded := up.PostUpload(auth, metadata, htmlContent);
    if uploaded.Err? {
      return ServerError(UpstreamFailure(uploaded.message));
    }
    response := Relayed(uploaded.data);
  }

  // ---------------------------------------------------------------------------
  // What the handler promises
  // ---------------------------------------------------------------------------

  /** Without a user the answer is 401 and no upstream call is issued; with
      one, the first call is always the folder listing. */
  lemma NoUserNoCalls(user: Option<User>, content: Option<string>, now: nat,
                      listReply: Reply<seq<FileRef>>, createReply: Reply<string>, uploadReply: Reply<string>)
    ensures var o := SaveOutcome(user, content, now, listReply, createReply, uploadReply);
            && (user.None? <==> o.calls == [])
            && (user.None? <==> Status(o.response) == 401)
            && (user.Some? ==> o.calls[0] == ListFiles(Bearer(user.value.accessToken), FolderQuery, FolderFields))
  {
  }

  /** Every call carries the session's token, and the run issues at most one
      listing, then at most one folder creation, then at most one upload. */
  lemma CallsInOrderWithSessionToken(u: User, content: Option<string>, now: nat,
                                     listReply: Reply<seq<FileRef>>, createReply: Reply<string>, uploadReply: Reply<string>)
    ensures var o := SaveOutcome(Some(u), content, now, listReply, createReply, uploadReply);
            && 1 <= |o.calls| <= 3
            && (forall i :: 0 <= i < |o.calls| ==> o.calls[i].authorization == Bearer(u.accessToken))
            && o.calls[0].ListFiles?
            && (forall i :: 1 <= i < |o.calls| ==> !o.calls[i].ListFiles?)
            && (forall i, j :: 0 <= i < j < |o.calls| ==> !o.calls[j].CreateFolder? || !o.calls[i].UploadFile?)
            && (forall i, j :: 0 <= i < j < |o.calls| && o.calls[i].CreateFolder? ==> !o.calls[j].CreateFolder?)
            && (forall i :: 0 <= i < |o.calls| - 1 ==> !o.calls[i].UploadFile?)
  {
    var auth := Bearer(u.accessToken);
    var o := SaveOutcome(Some(u), content, now, listReply, createReply, uploadReply);
    var list := ListFiles(auth, FolderQuery, FolderFields);
    if listReply.Err? {
      assert o.calls == [list] + [] + [];
      OrderedCalls(o.calls, auth, [], []);
    } else {
      var step := ResolveFolder(auth, listReply.data, createReply);
      var tail := if step.folder.Ok? && content.Some?
                  then [UploadFile(auth, UploadMetadata(step.folder.data, now), WrapHtml(content.value))]
                  else [];
      assert o.calls == [list] + step.calls + tail;
      OrderedCalls(o.calls, auth, step.calls, tail);
    }
  }

  /** A listing, then at most one creation, then at most one upload, all with
      one authorization: the order facts above hold for any such run. */
  lemma OrderedCalls(calls: seq<Call>, auth: string, mid: seq<Call>, tail: seq<Call>)
    requires calls == [ListFiles(auth, FolderQuery, FolderFields)] + mid + tail
    requires |mid| <= 1 && |tail| <= 1
    requires forall i :: 0 <= i < |mid| ==> mid[i].CreateFolder? && mid[i].authorization == auth
    requires forall i :: 0 <= i < |tail| ==> tail[i].UploadFile? && tail[i].authorization == auth
    ensures 1 <= |calls| <= 3
    ensures forall i :: 0 <= i < |calls| ==> calls[i].authorization == auth
    ensures calls[0].ListFiles?
    ensures forall i :: 1 <= i < |calls| ==> !calls[i].ListFiles?
    ensures forall i, j :: 0 <= i < j < |calls| ==> !calls[j].CreateFolder? || !calls[i].UploadFile?
    ensures forall i, j :: 0 <= i < j < |calls| && calls[i].CreateFolder? ==> !calls[j].CreateFolder?
    ensures forall i :: 0 <= i < |calls| - 1 ==> !calls[i].UploadFile?
  {
    forall i | 1 <= i < |calls|
      ensures (i <= |mid| ==> calls[i] == mid[i - 1]) && (i > |mid| ==> calls[i] == tail[i - 1 - |mid|])
    {
    }
  }

  /** A truthy first listed id is the folder: no folder is created and the
      upload, if one is made, names that id as its only parent. */
  lemma ExistingFolderIsReused(u: User, content: Option<string>, now: nat, files: seq<FileRef>,
                               createReply: Reply<string>, uploadReply: Reply<string>)
    requires |files| > 0 && files[0].id != ""
    ensures var o := SaveOutcome(Some(u), content, now, Ok(files), createReply, uploadReply);
            && (forall i :: 0 <= i < |o.calls| ==> !o.calls[i].CreateFolder?)
            && (forall i :: 0 <= i < |o.calls| && o.calls[i].UploadFile? ==>
                  o.calls[i].metadata.parents == [files[0].id])
  {
    var auth := Bearer(u.accessToken);
    var o := SaveOutcome(Some(u), content, now, Ok(files), createReply, uploadReply);
    var list := ListFiles(auth, FolderQuery, FolderFields);
    assert ResolveFolder(auth, files, createReply) == FolderStep([], Ok(files[0].id));
    if content.Some? {
      assert o.calls == [list, UploadFile(auth, UploadMetadata(files[0].id, now), WrapHtml(content.value))];
    } else {
      assert o.calls == [list];
    }
  }

  /** An empty listing, or a first entry with a falsy id, makes exactly one
      `Letters` folder; its id becomes the upload's parent, and when the
      creation fails the run stops there with 500. */
  lemma MissingFolderIsCreated(u: User, content: Option<string>, now: nat, files: seq<FileRef>,
                               createReply: Reply<string>, uploadReply: Reply<string>)
    requires |files| == 0 || files[0].id == ""
    ensures var o := SaveOutcome(Some(u), content, now, Ok(files), createReply, uploadReply);
            && |o.calls| >= 2
            && o.calls[1] == CreateFolder(Bearer(u.accessToken), FolderName, FolderMimeType)
            && (forall i :: 2 <= i < |o.calls| ==> !o.calls[i].CreateFolder?)
            && (createReply.Ok? ==>
                  forall i :: 0 <= i < |o.calls| && o.calls[i].UploadFile? ==>
                    o.calls[i].metadata.parents == [createReply.data])
            && (createReply.Err? ==>
                  |o.calls| == 2 && o.response == ServerError(UpstreamFailure(createReply.message)))
  {
  }

  /** A 200 answer is the upload's data relayed unchanged, after a listing,
      possibly a creation, and exactly one upload of the wrapped content under
      a letter name of the clock reading. */
  lemma SuccessfulSave(user: Option<User>, content: Option<string>, now: nat,
                       listReply: Reply<seq<FileRef>>, createReply: Reply<string>, uploadReply: Reply<string>)
    ensures var o := SaveOutcome(user, content, now, listReply, createReply, uploadReply);
            Status(o.response) == 200 ==>
              && user.Some? && content.Some? && listReply.Ok? && uploadReply.Ok?
              && o.response == Relayed(uploadReply.data)
              && 2 <= |o.calls| <= 3
              && (var last := o.calls[|o.calls| - 1];
                  && last.UploadFile?
                  && last.html == WrapHtml(content.value)
                  && last.metadata.mimeType == DocumentMimeType
                  && LetterTimestamp(last.metadata.name) == Some(now))
  {
  }

  /** The reverse: a user, string content and three successful replies always
      give a 200 answer. */
  lemma AllRepliesOkMeansRelayed(u: User, text: string, now: nat,
                                 files: seq<FileRef>, createReply: Reply<string>, data: string)
    requires ListedFolderId(files) == "" ==> createReply.Ok?
    ensures SaveOutcome(Some(u), Some(text), now, Ok(files), createReply, Ok(data)).response == Relayed(data)
  {
  }

  /** A rejected call ends the run: it is the last call logged, the answer is
      500 with its message, and nothing issued before it is undone (the call
      vocabulary has no deletion). */
  lemma FailureStopsTheRun(user: Option<User>, content: Option<string>, now: nat,
                           listReply: Reply<seq<FileRef>>, createReply: Reply<string>, uploadReply: Reply<string>)
    ensures var o := SaveOutcome(user, content, now, listReply, createReply, uploadReply);
            o.response.ServerError? && o.response.failure.UpstreamFailure? ==>
              && o.calls != []
              && (var last := o.calls[|o.calls| - 1];
                  || (last.ListFiles? && listReply == Err(o.response.failure.message))
                  || (last.CreateFolder? && createReply == Err(o.response.failure.message))
                  || (last.UploadFile? && uploadReply == Err(o.response.failure.message)))
  {
  }

  /** The converse, step by step: a rejected listing is the run's only call
      and its message is the 500 answer; nothing is created or uploaded. */
  lemma RejectedListingStopsTheRun(u: User, content: Option<string>, now: nat, m: string,
                                   createReply: Reply<string>, uploadReply: Reply<string>)
    ensures SaveOutcome(Some(u), content, now, Err(m), createReply, uploadReply)
            == Outcome([ListFiles(Bearer(u.accessToken), FolderQuery, FolderFields)],
                       ServerError(UpstreamFailure(m)))
  {
  }

  /** A rejected folder creation follows the listing and ends the run with its
      message; nothing is uploaded, whatever the content. */
  lemma RejectedCreationStopsTheRun(u: User, content: Option<string>, now: nat, files: seq<FileRef>,
                                    m: string, uploadReply: Reply<string>)
    requires ListedFolderId(files) == ""
    ensures SaveOutcome(Some(u), content, now, Ok(files), Err(m), uploadReply)
            == Outcome([ListFiles(Bearer(u.accessToken), FolderQuery, FolderFields),
                        CreateFolder(Bearer(u.accessToken), FolderName, FolderMimeType)],
                       ServerError(UpstreamFailure(m)))
  {
  }

  /** Once the folder is known and the content is a string, a rejected upload
      is the last call and its message is the 500 answer. */
  lemma RejectedUploadStopsTheRun(u: User, text: string, now: nat, files: seq<FileRef>,
                                  createReply: Reply<string>, m: string)
    requires ListedFolderId(files) == "" ==> createReply.Ok?
    ensures var folderId := if ListedFolderId(files) != "" then ListedFolderId(files) else createReply.data;
            var o := SaveOutcome(Some(u), Some(text), now, Ok(files), createReply, Err(m));
            && o.response == ServerError(UpstreamFailure(m))
            && |o.calls| == (if ListedFolderId(files) != "" then 2 else 3)
            && o.calls[|o.calls| - 1]
               == UploadFile(Bearer(u.accessToken), UploadMetadata(folderId, now), WrapHtml(text))
  {
  }

  /** Content that is not a string fails only after folder resolution: the
      listing (and any creation) still happens, the upload does not. */
  lemma NonTextContentFailsBeforeUpload(u: User, now: nat, listReply: Reply<seq<FileRef>>,
                                        createReply: Reply<string>, uploadReply: Reply<string>)
    ensures var o := SaveOutcome(Some(u), None, now, listReply, createReply, uploadReply);
            && (forall i :: 0 <= i < |o.calls| ==> !o.calls[i].UploadFile?)
            && Status(o.response) == 500
            && (listReply.Ok? ==>
                  o.calls == [ListFiles(Bearer(u.accessToken), FolderQuery, FolderFields)]
                             + ResolveFolder(Bearer(u.accessToken), listReply.data, createReply).calls)
            && (listReply.Ok? && (ListedFolderId(listReply.data) == "" ==> createReply.Ok?) ==>
                  o.response == ServerError(ContentNotText))
  {
  }

  /** The end-to-end run: token "T", content "Hello\nWorld", an empty listing
      and a folder created with `createdId`. The content and the expected HTML
      are parameters fixed by `requires` because the verifier does not unfold
      `ReplaceNewlines` on a string literal within its resource limit. */
  lemma HelloWorldScenario(content: string, html: string, createdId: string, now: nat, data: string)
    requires content == "Hello\nWorld" && html == "<html><body><p>Hello<br>World</p></body></html>"
    ensures var o := SaveOutcome(Some(User("T")), Some(content), now, Ok([]), Ok(createdId), Ok(data));
            && o.calls == [
                 ListFiles("Bearer T", FolderQuery, FolderFields),
                 CreateFolder("Bearer T", "Letters", FolderMimeType),
                 UploadFile("Bearer T", UploadMetadata(createdId, now), html)]
            && o.calls[2].metadata.parents == [createdId]
            && o.response == Relayed(data)
  {
    HelloWorldHtml(content, html);
    EmptyListingRun(User("T"), content, createdId, now, data);
    assert Bearer("T") == "Bearer T";
  }

  /** A run for any content with an empty listing and successful replies. */
  lemma EmptyListingRun(u: User, content: string, createdId: string, now: nat, data: string)
    ensures var auth := Bearer(u.accessToken);
            SaveOutcome(Some(u), Some(content), now, Ok([]), Ok(createdId), Ok(data))
            == Outcome([ListFiles(auth, FolderQuery, FolderFields),
                        CreateFolder(auth, FolderName, FolderMimeType),
                        UploadFile(auth, UploadMetadata(createdId, now), WrapHtml(content))],
                       Relayed(data))
  {
  }

  /** The wrap of "Hello\nWorld" (a parameter, for the same reason). */
  lemma HelloWorldHtml(content: string, html: string)
    requires content == "Hello\nWorld" && html == "<html><body><p>Hello<br>World</p></body></html>"
    ensures WrapHtml(content) == html
  {
    var hello, world := content[..5], content[6..];
    HelloWorldLines(content, hello, world);
    ReplaceNewlinesJoin(hello, world);
    HelloWorldBody(hello, world, html);
  }

  lemma HelloWorldLines(content: string, hello: string, world: string)
    requires content == "Hello\nWorld" && hello == content[..5] && world == content[6..]
    ensures hello == "Hello" && world == "World" && content == hello + "\n" + world
  {
  }

  lemma HelloWorldBody(hello: string, world: string, html: string)
    requires hello == "Hello" && world == "World"
    requires html == "<html><body><p>Hello<br>World</p></body></html>"
    ensures HtmlOpen + (hello + BreakTag + world) + HtmlClose == html
  {
  }

  // ---------------------------------------------------------------------------
  // GET /auth/logout
  // ---------------------------------------------------------------------------

  /** The library steps the logout route takes, in order. */
  datatype SessionStep = PassportLogout | DestroySession | ClearCookie(name: string, path: string)

  datatype JsonBody = ErrorBody(error: string) | MessageBody(message: string)

  datatype LogoutResponse = LogoutResponse(status: int, body: JsonBody, steps: seq<SessionStep>)

  const SessionCookie: string := "connect.sid"

  /** Every step of a logout that goes through. */
  const FullLogout: seq<SessionStep> := [PassportLogout, DestroySession, ClearCookie(SessionCookie, "/")]

  /** The logout route, given the error (if any) that `req.logout` reports and
      the error (if any) that `req.session.destroy` would report. */
  function Logout(logoutError: Option<string>, destroyError: Option<string>): (r: LogoutResponse)
    ensures r.status == 200 || r.status == 500
    ensures r.status == 200 <==> logoutError.None? && destroyError.None?
    ensures r.steps <= FullLogout && |r.steps| >= 1
    ensures ClearCookie(SessionCookie, "/") in r.steps <==> r.status == 200
    ensures DestroySession in r.steps <==> logoutError.None?
    ensures logoutError.Some? ==> r.body == ErrorBody("Logout failed")
    ensures logoutError.None? && destroyError.Some? ==> r.body == ErrorBody("Failed to destroy session")
    ensures r.status == 200 ==> r.body == MessageBody("Logged out successfully")
  {
    if logoutError.Some? then
      LogoutResponse(500, ErrorBody("Logout failed"), [PassportLogout])
    else if destroyError.Some? then
      LogoutResponse(500, ErrorBody("Failed to destroy session"), [PassportLogout, DestroySession])
    else
      LogoutResponse(200, MessageBody("Logged out successfully"), FullLogout)
  }
}
