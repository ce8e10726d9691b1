/**
 * The account-mode state of a GoFile client and, for each operation, the
 * outcome of calling it: the value returned or the error raised, the requests
 * handed to the transport in order, and the state afterwards.
 */
module Session {
  import opened Wrappers
  import opened Http

  /** The five instance variables of a client; `None` stands for Ruby's `nil`. */
  datatype State = State(
    token: Option<string>,
    hasToken: bool,
    isGuest: bool,
    accountDetails: Option<Response>,
    guestUploadDestination: Option<string>)

  /** The errors an operation can raise before returning. */
  datatype Error =
    | GuestFolderBeforeFirstUpload     // a guest passed a folder id to an upload
    | CreateFolderWithoutToken         // a folder was requested without a token
    | RootFolderWithoutAuthentication  // a folder was requested before `authenticate`
    | GetChildrenWithoutToken          // a listing was requested without a token
    | NilDereference                   // a `nil` reply member was indexed (Ruby's NoMethodError)

  datatype Outcome = Outcome(result: Result<Response, Error>, sent: seq<Request>, post: State)

  const GetServerUrl := "https://api.gofile.io/getServer"
  const CreateFolderUrl := "https://api.gofile.io/createFolder"
  const SetFolderOptionUrl := "https://api.gofile.io/setFolderOption"
  const CopyContentUrl := "https://api.gofile.io/copyContent"
  const DeleteContentUrl := "https://api.gofile.io/deleteContent"

  /** The upload endpoint on the storage server chosen by `getServer`. */
  function UploadUrl(server: Option<string>): string {
    "https://" + Show(server) + ".gofile.io/uploadFile"
  }

  function ContentUrl(contentId: Option<string>, token: Option<string>): string {
    "https://api.gofile.io/getContent?contentId=" + Show(contentId) + "&token=" + Show(token)
  }

  function AccountDetailsUrl(token: Option<string>): string {
    "https://api.gofile.io/getAccountDetails?token=" + Show(token)
  }

  /**
   * The states a client can be in. A guest never holds a token or an upload
   * destination; a client whose token flag is set holds a token and has not
   * captured a destination yet.
   */
  ghost predicate Inv(s: State) {
    && (s.isGuest ==> !s.hasToken && s.token.None? && s.guestUploadDestination.None?)
    && (s.hasToken ==> s.token.Some? && s.guestUploadDestination.None?)
  }

  /** The instance variables as `initialize` assigns them, before the final check. */
  function Fresh(token: Option<string>, guest: bool): (s: State)
    ensures s.hasToken <==> token.Some?
    ensures s.token == token && s.isGuest == guest
    ensures s.accountDetails.None? && s.guestUploadDestination.None?
  {
    State(token, token.Some?, guest, None, None)
  }

  /**
   * `validate_guest_mode`: a client without a token becomes a guest, and a
   * guest that was given a token drops it.
   */
  function ValidateGuestMode(s: State): (r: State)
    ensures r.isGuest <==> s.isGuest || !s.hasToken
    ensures r.hasToken <==> s.hasToken && !s.isGuest
    ensures r.token == if s.hasToken && s.isGuest then None else s.token
    ensures r.accountDetails == s.accountDetails
    ensures r.guestUploadDestination == s.guestUploadDestination
  {
    var s1 := if !s.hasToken && !s.isGuest then s.(isGuest := true) else s;
    if s1.hasToken && s1.isGuest then s1.(token := None, hasToken := false) else s1
  }

  /** The state of a newly constructed client. */
  function Init(token: Option<string>, guest: bool): (s: State)
    ensures Inv(s)
    ensures s.isGuest <==> !s.hasToken
    ensures s.hasToken <==> s.token.Some?
    ensures s.isGuest <==> guest || token.None?
    ensures s.token == if s.isGuest then None else token
    ensures s.accountDetails.None? && s.guestUploadDestination.None?
  {
    ValidateGuestMode(Fresh(token, guest))
  }

  /**
   * A client built with no arguments is a guest, and one built with both a
   * token and `guest: true` is a guest that has dropped its token.
   */
  lemma ConstructionDefaults(token: string)
    ensures Init(None, false).isGuest && Init(None, false).token.None?
    ensures Init(Some(token), true).isGuest && Init(Some(token), true).token.None?
    ensures !Init(Some(token), false).isGuest && Init(Some(token), false).token == Some(token)
  {
  }

  /** `get_server`: asks for the best upload server. */
  function GetServer(s: State, net: Transport): (o: Outcome)
    ensures o.post == s
    ensures o.sent == [Get(GetServerUrl)]
    ensures o.result == Success(net(o.sent[0]))
  {
    var req := Get(GetServerUrl);
    Outcome(Success(net(req)), [req], s)
  }

  /** The multipart body of an upload, built as `upload_file` appends to it. */
  function UploadBody(s: State, file: File, folderId: Option<string>): (body: seq<Part>)
    ensures 1 <= |body| <= 3
    ensures body[0] == Part("file", FileValue(file))
  {
    [Part("file", FileValue(file))]
    + (if s.hasToken then [Part("token", Text(s.token))] else [])
    + (if folderId.Some? && s.hasToken then [Part("folderId", Text(folderId))]
       else if s.guestUploadDestination.Some? && folderId.None? then [Part("folderId", Text(s.guestUploadDestination))]
       else [])
  }

  /**
   * The folder id an upload sends: the explicit one when a token is held, else,
   * when no id is given, the captured destination.
   */
  function SentFolder(s: State, folderId: Option<string>): Option<string> {
    if folderId.Some? && s.hasToken then folderId
    else if folderId.None? then s.guestUploadDestination
    else None
  }

  /**
   * Every upload body holds the file first, then the token exactly when the
   * token flag is set, then the folder id `SentFolder` resolves, and nothing else.
   */
  lemma UploadBodyShape(s: State, file: File, folderId: Option<string>)
    ensures var body := UploadBody(s, file, folderId);
      && Count(body, "file") == 1
      && Count(body, "token") == (if s.hasToken then 1 else 0)
      && (s.hasToken ==> body[1] == Part("token", Text(s.token)))
      && |body| == 1 + (if s.hasToken then 1 else 0) + (if SentFolder(s, folderId).Some? then 1 else 0)
  {
  }

  /**
   * An upload body holds at most one folder id, last, present exactly when
   * `SentFolder` resolves one: the explicit id when the token flag is set,
   * else the captured destination when no id is given.
   */
  lemma UploadFolderChoice(s: State, file: File, folderId: Option<string>)
    ensures var body := UploadBody(s, file, folderId);
      && Count(body, "folderId") <= 1
      && (Count(body, "folderId") == 1 <==> SentFolder(s, folderId).Some?)
      && (SentFolder(s, folderId).Some? ==>
            Find(body, "folderId") == Some(Text(SentFolder(s, folderId)))
            && body[|body| - 1] == Part("folderId", Text(SentFolder(s, folderId))))
  {
    var head := [Part("file", FileValue(file))];
    var tok := if s.hasToken then [Part("token", Text(s.token))] else [];
    var fold := if folderId.Some? && s.hasToken then [Part("folderId", Text(folderId))]
                else if s.guestUploadDestination.Some? && folderId.None? then [Part("folderId", Text(s.guestUploadDestination))]
                else [];
    assert UploadBody(s, file, folderId) == head + tok + fold;
    Concat3(head, tok, fold, "folderId");
  }

  /**
   * `save_guest_acc_details`: takes the guest token and parent folder from an
   * upload reply, clears the token flag, and asks for the account details of
   * the new token; that reply is returned and not stored.
   */
  function SaveGuestAccDetails(s: State, upload: Response, net: Transport): (o: Outcome)
    ensures upload.data.None? ==> o == Outcome(Failure(NilDereference), [], s)
    ensures upload.data.Some? ==>
      && o.post == s.(hasToken := false,
                      token := Lookup(upload.data.value, "guestToken"),
                      guestUploadDestination := Lookup(upload.data.value, "parentFolder"))
      && o.sent == [Get(AccountDetailsUrl(o.post.token))]
      && o.result == Success(net(o.sent[0]))
  {
    match upload.data
    case None => Outcome(Failure(NilDereference), [], s)
    case Some(data) =>
      var post := s.(hasToken := false,
                     guestUploadDestination := Lookup(data, "parentFolder"),
                     token := Lookup(data, "guestToken"));
      var details := GetAccountDetails(post, net);
      Outcome(details.result, details.sent, post)
  }

  /**
   * `upload_file`: refuses a folder id from a guest, asks for a server, posts
   * the body and, when the token flag was set, captures the reply's guest
   * token and parent folder. The upload reply is returned unmodified.
   */
  function Upload(s: State, file: File, folderId: Option<string>, net: Transport): (o: Outcome)
    ensures folderId.Some? && s.isGuest ==> o == Outcome(Failure(GuestFolderBeforeFirstUpload), [], s)
    ensures o.result.Failure? ==> o.post == s
    ensures o.result.Failure? && !(folderId.Some? && s.isGuest) ==> o.result.error == NilDereference
    ensures o.post.isGuest == s.isGuest && o.post.accountDetails == s.accountDetails
    ensures !s.hasToken ==> o.post == s
    ensures o.result.Success? ==>
      && |o.sent| >= 2
      && o.sent[0] == Get(GetServerUrl)
      && net(o.sent[0]).data.Some?
      && o.sent[1] == PostMultipart(UploadUrl(Lookup(net(o.sent[0]).data.value, "server")),
                                    UploadBody(s, file, folderId))
      && o.sent[1].url == "https://" + Show(Lookup(net(o.sent[0]).data.value, "server")) + ".gofile.io/uploadFile"
      && o.result.value == net(o.sent[1])
    ensures o.result.Success? && !s.hasToken ==> |o.sent| == 2
    ensures o.result.Success? && s.hasToken ==>
      && o.result.value.data.Some?
      && o.post == s.(hasToken := false,
                      token := Lookup(o.result.value.data.value, "guestToken"),
                      guestUploadDestination := Lookup(o.result.value.data.value, "parentFolder"))
      && o.sent == o.sent[..2] + [Get(AccountDetailsUrl(o.post.token))]
    ensures !(folderId.Some? && s.isGuest) && net(Get(GetServerUrl)).data.None? ==> o.sent == [Get(GetServerUrl)]
    ensures o.result.Failure? && !(folderId.Some? && s.isGuest) && net(Get(GetServerUrl)).data.Some? ==>
      o.sent == [Get(GetServerUrl),
                 PostMultipart(UploadUrl(Lookup(net(Get(GetServerUrl)).data.value, "server")),
                               UploadBody(s, file, folderId))]
    ensures o.result.Failure? <==>
      || (folderId.Some? && s.isGuest)
      || net(Get(GetServerUrl)).data.None?
      || (s.hasToken && net(PostMultipart(UploadUrl(Lookup(net(Get(GetServerUrl)).data.value, "server")),
                                          UploadBody(s, file, folderId))).data.None?)
  {
    if folderId.Some? && s.isGuest then Outcome(Failure(GuestFolderBeforeFirstUpload), [], s)
    else
      var serverReq := Get(GetServerUrl);
      var server := net(serverReq);
      match server.data
      case None => Outcome(Failure(NilDereference), [serverReq], s)
      case Some(serverData) =>
        var uploadReq := PostMultipart(UploadUrl(Lookup(serverData, "server")), UploadBody(s, file, folderId));
        var ret := net(uploadReq);
        if s.hasToken then
          var saved := SaveGuestAccDetails(s, ret, net);
          match saved.result
          case Failure(e) => Outcome(Failure(e), [serverReq, uploadReq] + saved.sent, s)
          case Success(_) => Outcome(Success(ret), [serverReq, uploadReq] + saved.sent, saved.post)
        else
          Outcome(Success(ret), [serverReq, uploadReq], s)
  }

  /** The root folder recorded in the account snapshot. */
  function RootFolder(s: State): Option<string>
    requires s.accountDetails.Some? && s.accountDetails.value.data.Some?
  {
    Lookup(s.accountDetails.value.data.value, "rootFolder")
  }

  /** The form `create_folder` sends, in the order of its hash literal. */
  function CreateFolderForm(parent: Option<string>, folderName: string, token: Option<string>): (f: Form)
    ensures Keys(f) == ["parentFolderId", "folderName", "token"]
    ensures Values(f) == [parent, Some(folderName), token]
  {
    [("parentFolderId", parent), ("folderName", Some(folderName)), ("token", token)]
  }

  /**
   * `create_folder`: needs the token flag and an account snapshot; the parent
   * defaults to the snapshot's root folder.
   */
  function CreateFolder(s: State, parentId: Option<string>, folderName: string, net: Transport): (o: Outcome)
    ensures o.post == s
    ensures !s.hasToken ==> o.result == Failure(CreateFolderWithoutToken)
    ensures s.hasToken && s.accountDetails.None? ==> o.result == Failure(RootFolderWithoutAuthentication)
    ensures o.result.Failure? <==> o.sent == []
    ensures o.result.Success? <==>
      s.hasToken && s.accountDetails.Some? && (parentId.Some? || s.accountDetails.value.data.Some?)
    ensures o.result.Failure? && s.hasToken && s.accountDetails.Some? ==> o.result.error == NilDereference
    ensures o.result.Success? ==>
      && o.sent == [Put(CreateFolderUrl, CreateFolderForm(if parentId.Some? then parentId else RootFolder(s),
                                                          folderName, s.token))]
      && o.result.value == net(o.sent[0])
  {
    if !s.hasToken then Outcome(Failure(CreateFolderWithoutToken), [], s)
    else if s.accountDetails.None? then Outcome(Failure(RootFolderWithoutAuthentication), [], s)
    else if parentId.None? && s.accountDetails.value.data.None? then Outcome(Failure(NilDereference), [], s)
    else
      var parent := if parentId.Some? then parentId else RootFolder(s);
      var req := Put(CreateFolderUrl, CreateFolderForm(parent, folderName, s.token));
      Outcome(Success(net(req)), [req], s)
  }

  /**
   * `get_children`: needs the token flag; always lists the snapshot's root
   * folder, whatever parent is asked for.
   */
  function GetChildren(s: State, parentId: Option<string>, net: Transport): (o: Outcome)
    ensures o.post == s
    ensures !s.hasToken ==> o == Outcome(Failure(GetChildrenWithoutToken), [], s)
    ensures o.result.Failure? <==>
      !s.hasToken || s.accountDetails.None? || s.accountDetails.value.data.None?
    ensures o.result.Failure? ==> o.sent == []
    ensures o.result.Failure? && s.hasToken ==> o.result.error == NilDereference
    ensures o.result.Success? ==>
      && o.sent == [Get(ContentUrl(RootFolder(s), s.token))]
      && o.result.value == net(o.sent[0])
  {
    if !s.hasToken then Outcome(Failure(GetChildrenWithoutToken), [], s)
    else if s.accountDetails.None? || s.accountDetails.value.data.None? then Outcome(Failure(NilDereference), [], s)
    else
      var req := Get(ContentUrl(RootFolder(s), s.token));
      Outcome(Success(net(req)), [req], s)
  }

  /** The form `set_folder_option` sends; the option and its value pass through verbatim. */
  function SetFolderOptionForm(folderId: string, option: string, value: string, token: Option<string>): (f: Form)
    ensures Keys(f) == ["option", "value", "folderId", "token"]
    ensures Values(f) == [Some(option), Some(value), Some(folderId), token]
  {
    [("option", Some(option)), ("value", Some(value)), ("folderId", Some(folderId)), ("token", token)]
  }

  /** `set_folder_option`: one PUT of the option form. */
  function SetFolderOption(s: State, folderId: string, option: string, value: string, net: Transport): (o: Outcome)
    ensures o.post == s
    ensures o.sent == [Put(SetFolderOptionUrl, SetFolderOptionForm(folderId, option, value, s.token))]
    ensures o.result == Success(net(o.sent[0]))
  {
    var req := Put(SetFolderOptionUrl, SetFolderOptionForm(folderId, option, value, s.token));
    Outcome(Success(net(req)), [req], s)
  }

  /** The form `copy_content` sends. */
  function CopyContentForm(destinationId: string, contentsId: string, token: Option<string>): (f: Form)
    ensures Keys(f) == ["contentsId", "folderIdDest", "token"]
    ensures Values(f) == [Some(contentsId), Some(destinationId), token]
  {
    [("contentsId", Some(contentsId)), ("folderIdDest", Some(destinationId)), ("token", token)]
  }

  /** `copy_content`: copies the comma-separated contents to a destination folder. */
  function CopyContent(s: State, destinationId: string, contentsId: string, net: Transport): (o: Outcome)
    ensures o.post == s
    ensures o.sent == [Put(CopyContentUrl, CopyContentForm(destinationId, contentsId, s.token))]
    ensures o.result == Success(net(o.sent[0]))
  {
    var req := Put(CopyContentUrl, CopyContentForm(destinationId, contentsId, s.token));
    Outcome(Success(net(req)), [req], s)
  }

  /** The form `delete_content` sends. */
  function DeleteContentForm(contentsId: string, token: Option<string>): (f: Form)
    ensures Keys(f) == ["contentsId", "token"]
    ensures Values(f) == [Some(contentsId), token]
  {
    [("contentsId", Some(contentsId)), ("token", token)]
  }

  /** `delete_content`: deletes the comma-separated contents. */
  function DeleteContent(s: State, contentsId: string, net: Transport): (o: Outcome)
    ensures o.post == s
    ensures o.sent == [Delete(DeleteContentUrl, DeleteContentForm(contentsId, s.token))]
    ensures o.result == Success(net(o.sent[0]))
  {
    var req := Delete(DeleteContentUrl, DeleteContentForm(contentsId, s.token));
    Outcome(Success(net(req)), [req], s)
  }

  /** `get_account_details`: looks up the account of the current token. */
  function GetAccountDetails(s: State, net: Transport): (o: Outcome)
    ensures o.post == s
    ensures o.sent == [Get(AccountDetailsUrl(s.token))]
    ensures o.result == Success(net(o.sent[0]))
  {
    var req := Get(AccountDetailsUrl(s.token));
    Outcome(Success(net(req)), [req], s)
  }

  /**
   * `authenticate`: stores whatever the account lookup replies, error
   * envelopes included, and returns it; nothing else changes.
   */
  function Authenticate(s: State, net: Transport): (o: Outcome)
    ensures o.sent == GetAccountDetails(s, net).sent
    ensures o.result == GetAccountDetails(s, net).result
    ensures o.result.Success? && o.post.accountDetails == Some(o.result.value)
    ensures o.post == s.(accountDetails := o.post.accountDetails)
  {
    var details := GetAccountDetails(s, net);
    Outcome(details.result, details.sent, s.(accountDetails := Some(details.result.value)))
  }
}
