/**
 * A client's lifetime as a sequence of calls, and what stays true along it:
 * guest mode never changes, the token flag never comes back once cleared, and
 * the capture of a guest token and upload destination happens at most once.
 */
module Lifecycle {
  import opened Wrappers
  import opened Http
  import opened Session

  /** One public call on a client, with the transport that answers it. */
  datatype Call =
    | CallGetServer(net: Transport)
    | CallUpload(file: File, folderId: Option<string>, net: Transport)
    | CallCreateFolder(parentId: Option<string>, folderName: string, net: Transport)
    | CallGetChildren(parentId: Option<string>, net: Transport)
    | CallSetFolderOption(targetFolderId: string, option: string, value: string, net: Transport)
    | CallCopyContent(destinationId: string, contentsId: string, net: Transport)
    | CallDeleteContent(contentsId: string, net: Transport)
    | CallGetAccountDetails(net: Transport)
    | CallAuthenticate(net: Transport)

  /** The outcome of one call; `is_guest?` reads state only and is not a call here. */
  function Perform(s: State, c: Call): (o: Outcome)
    ensures o.post.isGuest == s.isGuest
    ensures o.post.hasToken ==> s.hasToken
    ensures Inv(s) ==> Inv(o.post)
    ensures !Captures(s, o.post) ==>
      o.post.token == s.token && o.post.hasToken == s.hasToken
      && o.post.guestUploadDestination == s.guestUploadDestination
    ensures Captures(s, o.post) ==> c.CallUpload? && o.result.Success?
  {
    match c
    case CallGetServer(net) => GetServer(s, net)
    case CallUpload(file, folderId, net) => Upload(s, file, folderId, net)
    case CallCreateFolder(parentId, folderName, net) => CreateFolder(s, parentId, folderName, net)
    case CallGetChildren(parentId, net) => GetChildren(s, parentId, net)
    case CallSetFolderOption(targetFolderId, option, value, net) => SetFolderOption(s, targetFolderId, option, value, net)
    case CallCopyContent(destinationId, contentsId, net) => CopyContent(s, destinationId, contentsId, net)
    case CallDeleteContent(contentsId, net) => DeleteContent(s, contentsId, net)
    case CallGetAccountDetails(net) => GetAccountDetails(s, net)
    case CallAuthenticate(net) => Authenticate(s, net)
  }

  /** A step captured the upload reply: the token flag went from set to clear. */
  predicate Captures(s: State, post: State) {
    s.hasToken && !post.hasToken
  }

  /** The state after a sequence of calls. */
  function Run(s: State, calls: seq<Call>): State
    decreases |calls|
  {
    if calls == [] then s else Run(Perform(s, calls[0]).post, calls[1..])
  }

  /** How many calls of the sequence captured an upload reply. */
  function CaptureCount(s: State, calls: seq<Call>): nat
    decreases |calls|
  {
    if calls == [] then 0
    else
      var post := Perform(s, calls[0]).post;
      (if Captures(s, post) then 1 else 0) + CaptureCount(post, calls[1..])
  }

  lemma {:induction false} RunPreservesInv(s: State, calls: seq<Call>)
    requires Inv(s)
    ensures Inv(Run(s, calls))
    decreases |calls|
  {
    if calls != [] {
      RunPreservesInv(Perform(s, calls[0]).post, calls[1..]);
    }
  }

  /** `is_guest?` answers the same at every point of a client's lifetime. */
  lemma {:induction false} RunKeepsGuestMode(s: State, calls: seq<Call>)
    ensures Run(s, calls).isGuest == s.isGuest
    decreases |calls|
  {
    if calls != [] {
      RunKeepsGuestMode(Perform(s, calls[0]).post, calls[1..]);
    }
  }

  /** The token flag never goes from clear to set. */
  lemma {:induction false} RunTokenFlagNeverRises(s: State, calls: seq<Call>)
    ensures Run(s, calls).hasToken ==> s.hasToken
    decreases |calls|
  {
    if calls != [] {
      RunTokenFlagNeverRises(Perform(s, calls[0]).post, calls[1..]);
    }
  }

  /** Once the token flag is clear, the token and the upload destination never change again. */
  lemma {:induction false} RunFrozenWithoutTokenFlag(s: State, calls: seq<Call>)
    requires !s.hasToken
    ensures !Run(s, calls).hasToken
    ensures Run(s, calls).token == s.token
    ensures Run(s, calls).guestUploadDestination == s.guestUploadDestination
    decreases |calls|
  {
    if calls != [] {
      RunFrozenWithoutTokenFlag(Perform(s, calls[0]).post, calls[1..]);
    }
  }

  /** The capture, and with it the one write of the upload destination, happens at most once. */
  lemma {:induction false} CaptureAtMostOnce(s: State, calls: seq<Call>)
    ensures CaptureCount(s, calls) <= (if s.hasToken then 1 else 0)
    decreases |calls|
  {
    if calls != [] {
      var post := Perform(s, calls[0]).post;
      CaptureAtMostOnce(post, calls[1..]);
    }
  }

  /**
   * A client constructed as a guest stays a token-less guest for ever: its
   * uploads carry only the file, a folder id is always refused, and folder
   * creation and listing always raise.
   */
  lemma GuestLifetime(token: Option<string>, guest: bool, calls: seq<Call>,
                      file: File, folderId: string, parentId: Option<string>, folderName: string, net: Transport)
    requires guest || token.None?
    ensures var s := Run(Init(token, guest), calls);
      && s.isGuest && !s.hasToken && s.token.None? && s.guestUploadDestination.None?
      && UploadBody(s, file, None) == [Part("file", FileValue(file))]
      && Upload(s, file, Some(folderId), net) == Outcome(Failure(GuestFolderBeforeFirstUpload), [], s)
      && CreateFolder(s, parentId, folderName, net).result == Failure(CreateFolderWithoutToken)
      && GetChildren(s, parentId, net).result == Failure(GetChildrenWithoutToken)
  {
    RunPreservesInv(Init(token, guest), calls);
    RunKeepsGuestMode(Init(token, guest), calls);
  }

  /**
   * A client constructed with a token (and not as a guest) sends it with its
   * first upload and then replaces it by the reply's guest token, clearing the
   * token flag for the rest of its lifetime.
   */
  lemma TokenClientFirstUpload(token: string, file: File, folderId: Option<string>, net: Transport, calls: seq<Call>)
    ensures var s := Init(Some(token), false);
      var o := Upload(s, file, folderId, net);
      && !s.isGuest && s.hasToken
      && (o.result.Success? ==>
            && o.sent[1].parts[..2] == [Part("file", FileValue(file)), Part("token", Text(Some(token)))]
            && o.post.token == Lookup(o.result.value.data.value, "guestToken")
            && !Run(o.post, calls).hasToken
            && !Run(o.post, calls).isGuest)
  {
    var s := Init(Some(token), false);
    var o := Upload(s, file, folderId, net);
    if o.result.Success? {
      UploadBodyShape(s, file, folderId);
      RunFrozenWithoutTokenFlag(o.post, calls);
      RunKeepsGuestMode(o.post, calls);
    }
  }

  /**
   * A token client's second upload without a folder id goes to the parent
   * folder its first upload captured, without a token, and changes nothing.
   */
  lemma SecondUploadGoesToCapturedFolder(token: string, file1: File, file2: File, net1: Transport, net2: Transport)
    ensures var o1 := Upload(Init(Some(token), false), file1, None, net1);
      o1.result.Success? ==>
        var dest := Lookup(o1.result.value.data.value, "parentFolder");
        var o2 := Upload(o1.post, file2, None, net2);
        && o1.post.guestUploadDestination == dest
        && (o2.result.Success? ==>
              && o2.sent[1].parts == [Part("file", FileValue(file2))]
                                     + (if dest.Some? then [Part("folderId", Text(dest))] else [])
              && o2.post == o1.post)
  {
  }

  /**
   * After the capture, an upload without a folder id goes to the captured
   * destination, and an explicit folder id is silently not sent; neither
   * upload sends the token.
   */
  lemma UploadsAfterCapture(s: State, file: File, folderId: string)
    requires Inv(s) && !s.isGuest && !s.hasToken && s.guestUploadDestination.Some?
    ensures UploadBody(s, file, None) ==
      [Part("file", FileValue(file)), Part("folderId", Text(s.guestUploadDestination))]
    ensures UploadBody(s, file, Some(folderId)) == [Part("file", FileValue(file))]
  {
  }
}
