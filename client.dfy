/**
 * The GoFile client object. Its methods change its five fields as the Ruby
 * methods do, and each is proved to produce exactly the outcome that Session
 * defines for the state it started in.
 */
module Client {
  import opened Wrappers
  import opened Http
  import S = Session

  class GFClient {
    var token: Option<string>
    var hasToken: bool
    var isGuest: bool
    var accountDetails: Option<Response>
    var guestUploadDestination: Option<string>

    /** The fields as a state value. */
    function Snapshot(): S.State
      reads this
    {
      S.State(token, hasToken, isGuest, accountDetails, guestUploadDestination)
    }

    ghost predicate Valid()
      reads this
    {
      S.Inv(Snapshot())
    }

    /** `initialize(token:, guest:)`: assigns the fields, then runs `validate_guest_mode`. */
    constructor (token: Option<string>, guest: bool)
      ensures Valid()
      ensures Snapshot() == S.Init(token, guest)
    {
      this.token := token;
      hasToken := token.Some?;
      isGuest := guest;
      accountDetails := None;
      guestUploadDestination := None;
      new;
      ValidateGuestMode();
    }

    /** Reached only from the constructor, before any capture. */
    method ValidateGuestMode()
      requires (hasToken <==> token.Some?) && guestUploadDestination.None?
      modifies this
      ensures Valid()
      ensures Snapshot() == S.ValidateGuestMode(old(Snapshot()))
    {
      if !hasToken && !isGuest {
        isGuest := true;
      }
      if hasToken && isGuest {
        token := None;
        hasToken := false;
      }
    }

    method GetServer(net: Transport) returns (ret: Response, sent: seq<Request>)
      ensures S.GetServer(Snapshot(), net) == S.Outcome(Success(ret), sent, Snapshot())
    {
      var req := Get(S.GetServerUrl);
      ret, sent := net(req), [req];
    }

    method UploadFile(file: File, folderId: Option<string>, net: Transport)
      returns (r: Result<Response, S.Error>, sent: seq<Request>)
      requires Valid()
      modifies this
      ensures Valid()
      ensures S.Outcome(r, sent, Snapshot()) == S.Upload(old(Snapshot()), file, folderId, net)
    {
      ghost var s0 := Snapshot();
      if folderId.Some? && isGuest {
        return Failure(S.GuestFolderBeforeFirstUpload), [];
      }
      var server;
      server, sent := GetServer(net);
      if server.data.None? {
        return Failure(S.NilDereference), sent;
      }
      var uploadUrl := S.UploadUrl(Lookup(server.data.value, "server"));

      var body := [Part("file", FileValue(file))];
      if hasToken {
        body := body + [Part("token", Text(token))];
      }
      if folderId.Some? && hasToken {
        body := body + [Part("folderId", Text(folderId))];
      } else if guestUploadDestination.Some? && folderId.None? {
        body := body + [Part("folderId", Text(guestUploadDestination))];
      }

      assert body == S.UploadBody(s0, file, folderId);
      var req := PostMultipart(uploadUrl, body);
      var ret := net(req);
      sent := sent + [req];
      if hasToken {
        var saved, savedSent := SaveGuestAccDetails(ret, net);
        sent := sent + savedSent;
        if saved.Failure? {
          return Failure(saved.error), sent;
        }
      }
      r := Success(ret);
    }

    /** Reached only from `UploadFile`, on a valid client whose token flag is set. */
    method SaveGuestAccDetails(upload: Response, net: Transport)
      returns (r: Result<Response, S.Error>, sent: seq<Request>)
      requires Valid() && hasToken
      modifies this
      ensures Valid()
      ensures S.Outcome(r, sent, Snapshot()) == S.SaveGuestAccDetails(old(Snapshot()), upload, net)
    {
      if upload.data.None? {
        return Failure(S.NilDereference), [];
      }
      var guestToken := Lookup(upload.data.value, "guestToken");
      var newRootFolder := Lookup(upload.data.value, "parentFolder");
      hasToken := false;
      guestUploadDestination := newRootFolder;
      token := guestToken;
      var details;
      details, sent := GetAccountDetails(net);
      r := Success(details);
    }

    method CreateFolder(parentId: Option<string>, folderName: string, net: Transport)
      returns (r: Result<Response, S.Error>, sent: seq<Request>)
      ensures S.CreateFolder(Snapshot(), parentId, folderName, net) == S.Outcome(r, sent, Snapshot())
    {
      if !hasToken {
        return Failure(S.CreateFolderWithoutToken), [];
      }
      if accountDetails.None? {
        return Failure(S.RootFolderWithoutAuthentication), [];
      }
      var parent := parentId;
      if parent.None? {
        if accountDetails.value.data.None? {
          return Failure(S.NilDereference), [];
        }
        parent := Lookup(accountDetails.value.data.value, "rootFolder");
      }
      var req := Put(S.CreateFolderUrl, S.CreateFolderForm(parent, folderName, token));
      r, sent := Success(net(req)), [req];
    }

    /** The `parent_id` argument is never read: the local `parent` starts out `nil`. */
    method GetChildren(parentId: Option<string>, net: Transport)
      returns (r: Result<Response, S.Error>, sent: seq<Request>)
      ensures S.GetChildren(Snapshot(), parentId, net) == S.Outcome(r, sent, Snapshot())
    {
      if !hasToken {
        return Failure(S.GetChildrenWithoutToken), [];
      }
      var parent: Option<string> := None;
      if parent.None? {
        if accountDetails.None? || accountDetails.value.data.None? {
          return Failure(S.NilDereference), [];
        }
        parent := Lookup(accountDetails.value.data.value, "rootFolder");
      }
      var req := Get(S.ContentUrl(parent, token));
      r, sent := Success(net(req)), [req];
    }

    method SetFolderOption(folderId: string, option: string, value: string, net: Transport)
      returns (ret: Response, sent: seq<Request>)
      ensures S.SetFolderOption(Snapshot(), folderId, option, value, net) == S.Outcome(Success(ret), sent, Snapshot())
    {
      var req := Put(S.SetFolderOptionUrl, S.SetFolderOptionForm(folderId, option, value, token));
      ret, sent := net(req), [req];
    }

    method CopyContent(destinationId: string, contentsId: string, net: Transport)
      returns (ret: Response, sent: seq<Request>)
      ensures S.CopyContent(Snapshot(), destinationId, contentsId, net) == S.Outcome(Success(ret), sent, Snapshot())
    {
      var req := Put(S.CopyContentUrl, S.CopyContentForm(destinationId, contentsId, token));
      ret, sent := net(req), [req];
    }

    method DeleteContent(contentsId: string, net: Transport)
      returns (ret: Response, sent: seq<Request>)
      ensures S.DeleteContent(Snapshot(), contentsId, net) == S.Outcome(Success(ret), sent, Snapshot())
    {
      var req := Delete(S.DeleteContentUrl, S.DeleteContentForm(contentsId, token));
      ret, sent := net(req), [req];
    }

    method GetAccountDetails(net: Transport) returns (details: Response, sent: seq<Request>)
      ensures S.GetAccountDetails(Snapshot(), net) == S.Outcome(Success(details), sent, Snapshot())
    {
      var req := Get(S.AccountDetailsUrl(token));
      details, sent := net(req), [req];
    }

    method Authenticate(net: Transport) returns (details: Response, sent: seq<Request>)
      requires Valid()
      modifies this
      ensures Valid()
      ensures S.Outcome(Success(details), sent, Snapshot()) == S.Authenticate(old(Snapshot()), net)
    {
      details, sent := GetAccountDetails(net);
      accountDetails := Some(details);
    }

    /** `is_guest?`; a guest holds no token, no token flag and no upload destination. */
    function IsGuest(): (b: bool)
      reads this
      requires Valid()
      ensures b ==> !hasToken && token.None? && guestUploadDestination.None?
    {
      isGuest
    }
  }
}
