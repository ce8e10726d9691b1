# GoFile client account-mode model

A Dafny model of `GFClient`, the Ruby client for the GoFile file-hosting API
(lib/gofile_ruby.rb). The model covers the client's five instance variables
(`@token`, `@has_token`, `@is_guest`, `@account_details`,
`@guest_upload_destination`), how construction normalises the `token:` and
`guest:` arguments, and the request every public method builds. It also covers
the preconditions these methods raise on, the capture of a guest token and
upload folder after an upload, and the snapshot that `authenticate` stores.

Layout:

- `wrappers.dfy`: `Option` (Ruby's `nil` or a value) and `Result` (a value or a raised error).
- `http.dfy`: the transport interface. A `Request` is a GET, a PUT or DELETE
  with an ordered form, or a multipart POST with ordered `[name, value]` parts.
  A `Transport` is a function from the request to the parsed reply `{status, data}`.
- `session.dfy`: the state as a value and, for each method, a function giving
  its `Outcome`. An outcome is the returned response or raised error, the
  requests sent in order, and the state afterwards.
- `client.dfy`: class `GFClient`, whose fields and methods follow the Ruby
  class. Each method is proved to produce exactly the outcome `Session` defines.
  Methods that write fields have `modifies this`.
- `lifecycle.dfy`: a client's lifetime as a sequence of calls. It holds the
  invariants kept along that lifetime.

The model follows the code where it differs from the Ruby comments:

- With both a token and `guest: true`, guest mode wins and the token is dropped
  (lib/gofile_ruby.rb:319-322, spec/lib/gofile_ruby_spec.rb:18-20). The comment
  at lib/gofile_ruby.rb:318 says guest mode is switched off, so the token would win.
- The capture of `guestToken` and `parentFolder` after an upload runs when
  `@has_token` is set, so it runs for clients built with a token. It never runs
  for guests (lib/gofile_ruby.rb:90). It clears `@has_token`.
- `@is_guest` is never written after construction, so a guest client stays a
  token-less guest for its whole lifetime.
- `upload_file` ignores the account-details reply that `save_guest_acc_details`
  returns, so `@account_details` is only ever written by `authenticate`. The
  comment at lib/gofile_ruby.rb:309 says the details are saved into
  `@account_details`.
- `get_children` never reads its `parent_id` argument. The local `parent` it
  tests is always `nil`, so it always lists the snapshot's root folder.
- Indexing a `nil` reply member raises Ruby's `NoMethodError`. The model
  returns the error `NilDereference` with the state unchanged, and records the
  requests already sent.

## Model

| member | source | states |
|---|---|---|
| Session.Init | lib/gofile_ruby.rb:12-30 | afterwards the client is a guest exactly when it holds no token flag, the flag is set exactly when a token is held, it is a guest exactly when `guest:` was given or no token was; a guest's token is dropped; snapshot and destination start nil |
| Session.ValidateGuestMode | lib/gofile_ruby.rb:313-323 | guest mode is forced on when there is no token, and a token given together with guest mode is dropped with its flag |
| Session.ConstructionDefaults | spec/lib/gofile_ruby_spec.rb:18-24 | `GFClient.new` is a guest; `GFClient.new(guest: true, token: t)` is a guest without a token; a token alone gives a non-guest holding it |
| Client.GFClient.constructor | lib/gofile_ruby.rb:12-30 | the fields assigned by `initialize` and then `validate_guest_mode` are the state `Session.Init` defines, and the invariant holds |
| Client.GFClient.ValidateGuestMode | lib/gofile_ruby.rb:313-323 | on the freshly assigned fields (flag set exactly when a token is held, no destination), rewrites them as `Session.ValidateGuestMode` defines and establishes the invariant |
| Session.GetServer | lib/gofile_ruby.rb:42-45 | one GET of the fixed `getServer` URL; the reply is returned unmodified and no state changes |
| Client.GFClient.GetServer | lib/gofile_ruby.rb:42-45 | returns the transport's reply to the `getServer` GET and changes no field |
| Session.UploadBody | lib/gofile_ruby.rb:77-87 | the multipart body has one to three parts, and the file part comes first |
| Session.UploadBodyShape | lib/gofile_ruby.rb:77-78 | exactly one file part, in first place; a token part exactly when the token flag is set, and then in second place carrying the token; the body holds these and the resolved folder id and nothing else |
| Session.UploadFolderChoice | lib/gofile_ruby.rb:80-87 | at most one `folderId` part, present exactly when an explicit id with the token flag set, or the captured destination with no explicit id, applies; it then carries that id and is last |
| Session.Upload | lib/gofile_ruby.rb:71-93 | a guest passing a folder id raises before any request with state unchanged; otherwise GET server, then POST to `https://<server>.gofile.io/uploadFile` with the upload body; the upload reply is returned unmodified; with the token flag set the state afterwards holds the reply's `guestToken` and `parentFolder` with the flag cleared, otherwise nothing changes; guest mode and snapshot never change; every raise is listed, with the requests sent before it: only the server lookup when its reply has no data, and the server lookup and the file upload when the upload reply has no data, so the file has gone out |
| Client.GFClient.UploadFile | lib/gofile_ruby.rb:71-93 | appends the body parts as the Ruby method does and yields exactly the outcome of `Session.Upload`, keeping the invariant |
| Session.SaveGuestAccDetails | lib/gofile_ruby.rb:300-311 | clears the token flag, stores the reply's `guestToken` and `parentFolder`, asks for the account details of the new token and stores nothing else; a reply without data raises with state unchanged |
| Client.GFClient.SaveGuestAccDetails | lib/gofile_ruby.rb:300-311 | on a valid client with the token flag set, as at its one call site, writes the three fields as `Session.SaveGuestAccDetails` defines and keeps the invariant |
| Session.CreateFolderForm | lib/gofile_ruby.rb:115-119 | the form has keys `parentFolderId`, `folderName`, `token` in that order, carrying the parent, the name and the token |
| Session.CreateFolder | lib/gofile_ruby.rb:108-124 | raises without the token flag, or without a snapshot, before any request; otherwise one PUT to `createFolder` of `Session.CreateFolderForm`, the parent being the given id or else the snapshot's `rootFolder`; the reply is returned unmodified; no state changes; every raise is listed |
| Client.GFClient.CreateFolder | lib/gofile_ruby.rb:108-124 | yields the outcome of `Session.CreateFolder` |
| Session.GetChildren | lib/gofile_ruby.rb:167-176 | raises without the token flag; with the flag but no snapshot, or a snapshot without data, raises `NilDereference` (Ruby's `NoMethodError` at line 170); every raise sends nothing; otherwise one GET of `getContent` for the snapshot's root folder and the token, whatever parent is asked for, the reply returned unmodified; no state changes |
| Client.GFClient.GetChildren | lib/gofile_ruby.rb:167-176 | yields the outcome of `Session.GetChildren`, ignoring `parent_id` |
| Session.SetFolderOptionForm | lib/gofile_ruby.rb:202-207 | the form has keys `option`, `value`, `folderId`, `token` in that order, carrying the arguments verbatim and the token |
| Session.SetFolderOption | lib/gofile_ruby.rb:199-211 | one PUT to `setFolderOption` of `Session.SetFolderOptionForm` with the current token; reply returned unmodified; no state change |
| Client.GFClient.SetFolderOption | lib/gofile_ruby.rb:199-211 | yields the outcome of `Session.SetFolderOption` |
| Session.CopyContentForm | lib/gofile_ruby.rb:230-234 | the form has keys `contentsId`, `folderIdDest`, `token` in that order, carrying the contents, the destination and the token |
| Session.CopyContent | lib/gofile_ruby.rb:227-239 | one PUT to `copyContent` of `Session.CopyContentForm` with the current token; reply returned unmodified; no state change |
| Client.GFClient.CopyContent | lib/gofile_ruby.rb:227-239 | yields the outcome of `Session.CopyContent` |
| Session.DeleteContentForm | lib/gofile_ruby.rb:251-254 | the form has keys `contentsId`, `token` in that order, carrying the contents and the token |
| Session.DeleteContent | lib/gofile_ruby.rb:248-259 | one DELETE to `deleteContent` of `Session.DeleteContentForm` with the current token; reply returned unmodified; no state change |
| Client.GFClient.DeleteContent | lib/gofile_ruby.rb:248-259 | yields the outcome of `Session.DeleteContent` |
| Session.GetAccountDetails | lib/gofile_ruby.rb:276-281 | one GET of `getAccountDetails` for the current token; reply returned unmodified; no state change |
| Client.GFClient.GetAccountDetails | lib/gofile_ruby.rb:276-281 | yields the outcome of `Session.GetAccountDetails` |
| Session.Authenticate | lib/gofile_ruby.rb:288-291 | sends the account lookup, stores its reply as the snapshot whatever its status, returns it, and changes no other field |
| Client.GFClient.Authenticate | lib/gofile_ruby.rb:288-291 | sets the snapshot field as `Session.Authenticate` defines, keeping the invariant |
| Client.GFClient.IsGuest | lib/gofile_ruby.rb:293-295 | a client that answers guest holds no token, no token flag and no upload destination |
| Lifecycle.Perform | lib/gofile_ruby.rb:42-311 | no call changes guest mode or raises the token flag; every call keeps the invariant; only a successful upload with the token flag set changes the token, the flag or the destination |
| Lifecycle.RunPreservesInv | lib/gofile_ruby.rb:12-311 | the state invariant holds after any sequence of calls |
| Lifecycle.RunKeepsGuestMode | lib/gofile_ruby.rb:293-295 | `is_guest?` answers the same after any sequence of calls |
| Lifecycle.RunTokenFlagNeverRises | lib/gofile_ruby.rb:300-311 | the token flag never goes from clear to set |
| Lifecycle.RunFrozenWithoutTokenFlag | lib/gofile_ruby.rb:89-92 | once the token flag is clear, the token and the upload destination never change again |
| Lifecycle.CaptureAtMostOnce | lib/gofile_ruby.rb:89-92 | along any sequence of calls the capture happens at most once, and never when the flag starts clear |
| Lifecycle.GuestLifetime | lib/gofile_ruby.rb:71-176 | a client built as a guest stays a token-less guest: its uploads carry only the file, a folder id is always refused, and folder creation and listing always raise |
| Lifecycle.TokenClientFirstUpload | lib/gofile_ruby.rb:71-93 | a token client's first upload sends the file then its token, replaces the token by the reply's guest token, and leaves the flag clear for ever |
| Lifecycle.SecondUploadGoesToCapturedFolder | lib/gofile_ruby.rb:80-92 | after a token client's first upload, an upload without a folder id sends the file and the captured parent folder, no token, and changes nothing |
| Lifecycle.UploadsAfterCapture | lib/gofile_ruby.rb:80-87 | after the capture, an upload without a folder id goes to the captured destination, and an explicit folder id is not sent at all |

## Left out

- The HTTP transport (lib/gofile_ruby/http_helper.rb): TLS, `URI()` parsing, form
  and multipart encoding and `JSON.parse` are a function from request to reply.
  Its `raise unless data` guard never fires here, because every call passes a body.
- Transport failures (connection errors, a body that is not JSON) are not
  modelled: the transport always answers.
- lib/helpers/http/http.rb is not part of this model. It only issues a GET and
  prints the body.
- Reply `data` members that are not strings (numbers, booleans, nested objects
  such as `getContent`'s `contents`) are not modelled. Only string-valued members
  are kept, which is all the client reads.
- File contents are an opaque byte sequence.
- `URI()` validation of the `getContent` and `getAccountDetails` URLs is not
  modelled. The token and ids are interpolated raw, and `nil` becomes the empty
  string as in Ruby. A token or id that `URI()` rejects raises in Ruby; the
  model builds the URL regardless.
- Ruby's exception objects and messages are not modelled: each raise is an
  `Error` value, and each `NoMethodError` from indexing `nil` is `NilDereference`.
- Arguments are modelled as their string form: `set_folder_option`'s `value`
  (a boolean or a Unix timestamp in the Ruby documentation) is the string it is
  sent as, and an explicit `nil` passed for a required argument is not modelled.
- `attr_reader :account_details` is the `accountDetails` field itself.
- Concurrent use of one client is not modelled. The Ruby code is sequential.
