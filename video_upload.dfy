/** The video upload endpoint (`POST /api/video-upload`): authenticate the caller,
    check the media host's credentials, read the multipart form, upload the file to the
    media host, store a video record built from the host's answer, and answer with that
    record, or with an error status at the first step that fails. The identity provider,
    the request body, the media host and the metadata store are outside the model: what
    each of them does for one request is given as an outcome in a `Request`, and the calls
    the handler makes on them are returned as a trace of effects. */
module VideoUpload {
  import opened JsValues

  const AuthFailedMessage := "Authentication failed"
  const UnauthorizedMessage := "Unauthorized"
  const CredentialsMissingMessage := "Cloudinary credentials not found"
  const NoFileMessage := "No file uploaded"
  const UploadFailedMessage := "Upload video failed"

  type Bytes = seq<bv8>

  /** A value of a multipart form field: text, or an uploaded file's content. */
  datatype FormValue = Text(text: string) | FileValue(content: Bytes)

  datatype FormEntry = FormEntry(name: string, value: FormValue)

  /** `formData.get(name)`: the value of the first entry with that name, or null. */
  function FormGet(entries: seq<FormEntry>, name: string): (r: Option<FormValue>)
    ensures r.Some? ==> FormEntry(name, r.value) in entries
  {
    if entries == [] then None
    else if entries[0].name == name then Some(entries[0].value)
    else FormGet(entries[1..], name)
  }

  /** `FormGet` finds nothing exactly when no entry has the name, and otherwise finds
      the value of an entry with the name that no earlier entry shares. */
  lemma {:induction false} FormGetFindsFirst(entries: seq<FormEntry>, name: string)
    ensures FormGet(entries, name).None? <==> forall i :: 0 <= i < |entries| ==> entries[i].name != name
    ensures FormGet(entries, name).Some? ==>
      exists i :: (0 <= i < |entries| && entries[i] == FormEntry(name, FormGet(entries, name).value)
        && forall j :: 0 <= j < i ==> entries[j].name != name)
  {
    if entries != [] && entries[0].name != name {
      var rest := entries[1..];
      FormGetFindsFirst(rest, name);
      var r := FormGet(rest, name);
      if r.Some? {
        var i :| 0 <= i < |rest| && rest[i] == FormEntry(name, r.value)
          && forall j :: 0 <= j < i ==> rest[j].name != name;
        assert entries[i + 1] == FormEntry(name, r.value);
        forall j | 0 <= j < i + 1 ensures entries[j].name != name {
          if j > 0 { assert entries[j] == rest[j - 1]; }
        }
      } else {
        forall i | 0 <= i < |entries| ensures entries[i].name != name {
          if i > 0 { assert entries[i] == rest[i - 1]; }
        }
      }
    } else if entries != [] {
      assert entries[0] == FormEntry(name, FormGet(entries, name).value);
    }
  }

  /** `!!value` for a form value that may be null: a file is always truthy, a text
      only when it is not empty. */
  predicate TruthyFormValue(v: Option<FormValue>)
    ensures v.Some? && v.value.FileValue? ==> TruthyFormValue(v)
    ensures v == None || v == Some(Text("")) ==> !TruthyFormValue(v)
    ensures v.Some? && v.value.Text? ==> (TruthyFormValue(v) <==> |v.value.text| > 0)
  {
    v.Some? && (v.value.FileValue? || v.value.text != "")
  }

  /** What the media host answers for a successful upload. */
  datatype UploadResult = UploadResult(publicId: string, bytes: nat, duration: Option<Number>)

  /** The fields the handler asks the store to create a video record with. The form's
      fields are passed on as they were read: the handler's casts check nothing. */
  datatype VideoData = VideoData(
    title: Option<FormValue>,
    description: Option<FormValue>,
    originalSize: Option<FormValue>,
    compressedSize: string,
    publicId: string,
    duration: Number)

  /** A stored video record: the created fields plus what the store adds. */
  datatype Video = Video(
    id: string,
    title: Option<FormValue>,
    description: Option<FormValue>,
    originalSize: Option<FormValue>,
    compressedSize: string,
    publicId: string,
    createdAt: int,
    duration: Number,
    updatedAt: int)

  /** The three media-host settings read from the environment. */
  datatype Env = Env(cloudName: Option<string>, apiKey: Option<string>, apiSecret: Option<string>)

  /** The outcomes of the external steps for one request. */
  datatype AuthOutcome = AuthThrew | AuthReturned(userId: Option<string>)
  datatype FormOutcome = FormParsed(entries: seq<FormEntry>) | FormParseFailed
  datatype UploadOutcome = Uploaded(result: UploadResult) | UploadFailed
  datatype CreateOutcome = Created(id: string, createdAt: int, updatedAt: int) | CreateFailed

  datatype Request = Request(
    auth: AuthOutcome,
    env: Env,
    form: FormOutcome,
    upload: UploadOutcome,
    create: CreateOutcome)

  datatype Body = ErrorBody(error: string) | VideoBody(video: Video)
  datatype Response = Response(status: nat, body: Body)

  /** A call the handler makes on a collaborator. */
  datatype Effect =
    | Authenticate
    | ReadForm
    | UploadFile(content: Bytes)
    | CreateVideo(data: VideoData)
    | Disconnect

  function Failure(status: nat, message: string): Response
  {
    Response(status, ErrorBody(message))
  }

  predicate Authorized(req: Request)
  {
    req.auth.AuthReturned? && TruthyString(req.auth.userId)
  }

  predicate CredentialsPresent(env: Env)
  {
    TruthyString(env.cloudName) && TruthyString(env.apiKey) && TruthyString(env.apiSecret)
  }

  /** The record data for an upload: the form's title, description and original size,
      the host's identifier, the host's byte count printed in decimal, and the host's
      duration when it is present and truthy, otherwise 0. */
  function RecordData(entries: seq<FormEntry>, result: UploadResult): (d: VideoData)
    ensures d.title == FormGet(entries, "title")
    ensures d.description == FormGet(entries, "description")
    ensures d.originalSize == FormGet(entries, "originalSize")
    ensures d.publicId == result.publicId
    ensures IsCanonicalDecimal(d.compressedSize) && ParseDecimal(d.compressedSize) == result.bytes
    ensures TruthyNumber(d.duration) <==> result.duration.Some? && TruthyNumber(result.duration.value)
    ensures TruthyNumber(d.duration) ==> result.duration == Some(d.duration)
    ensures !TruthyNumber(d.duration) ==> d.duration == Finite(0.0)
  {
    ParseDecimalString(result.bytes);
    VideoData(
      FormGet(entries, "title"),
      FormGet(entries, "description"),
      FormGet(entries, "originalSize"),
      DecimalString(result.bytes),
      result.publicId,
      OrZero(result.duration))
  }

  /** The fields of a stored record that the handler supplied. */
  function CreatedFields(v: Video): VideoData
  {
    VideoData(v.title, v.description, v.originalSize, v.compressedSize, v.publicId, v.duration)
  }

  /** The record the store returns for created data: every created field is kept, and
      the store adds the id and the two timestamps. */
  function Stored(d: VideoData, id: string, createdAt: int, updatedAt: int): (v: Video)
    ensures CreatedFields(v) == d
    ensures v.id == id && v.createdAt == createdAt && v.updatedAt == updatedAt
  {
    Video(id, d.title, d.description, d.originalSize, d.compressedSize, d.publicId,
          createdAt, d.duration, updatedAt)
  }

  /** The handler. Each guard answers with its own status and stops every later step;
      the store connection is released exactly once on every path that got past the
      sign-in check, and on no other. */
  method Post(req: Request) returns (resp: Response, effects: seq<Effect>)
    // Authentication: the lookup throws, or yields no user id.
    ensures req.auth.AuthThrew? ==>
      resp == Failure(500, AuthFailedMessage) && effects == [Authenticate]
    ensures req.auth.AuthReturned? && !TruthyString(req.auth.userId) ==>
      resp == Failure(401, UnauthorizedMessage) && effects == [Authenticate]
    // Media-host credentials, checked before the form is read.
    ensures Authorized(req) && !CredentialsPresent(req.env) ==>
      resp == Failure(500, CredentialsMissingMessage) && effects == [Authenticate, Disconnect]
    // Reading the form.
    ensures Authorized(req) && CredentialsPresent(req.env) && req.form.FormParseFailed? ==>
      resp == Failure(500, UploadFailedMessage) && effects == [Authenticate, ReadForm, Disconnect]
    ensures (Authorized(req) && CredentialsPresent(req.env) && req.form.FormParsed?
             && !TruthyFormValue(FormGet(req.form.entries, "file"))) ==>
      resp == Failure(400, NoFileMessage) && effects == [Authenticate, ReadForm, Disconnect]
    // A non-empty text where the file should be: reading its bytes throws.
    ensures (Authorized(req) && CredentialsPresent(req.env) && req.form.FormParsed?
             && TruthyFormValue(FormGet(req.form.entries, "file"))
             && FormGet(req.form.entries, "file").value.Text?) ==>
      resp == Failure(500, UploadFailedMessage) && effects == [Authenticate, ReadForm, Disconnect]
    // The upload and the record.
    ensures (Authorized(req) && CredentialsPresent(req.env) && req.form.FormParsed?
             && FormGet(req.form.entries, "file").Some?
             && FormGet(req.form.entries, "file").value.FileValue?) ==>
      var content := FormGet(req.form.entries, "file").value.content;
      match req.upload
      case UploadFailed =>
        resp == Failure(500, UploadFailedMessage)
        && effects == [Authenticate, ReadForm, UploadFile(content), Disconnect]
      case Uploaded(result) =>
        var data := RecordData(req.form.entries, result);
        effects == [Authenticate, ReadForm, UploadFile(content), CreateVideo(data), Disconnect]
        && match req.create
           case CreateFailed => resp == Failure(500, UploadFailedMessage)
           case Created(id, createdAt, updatedAt) =>
             resp == Response(200, VideoBody(Stored(data, id, createdAt, updatedAt)))
    // Properties over all paths.
    ensures |effects| >= 1 && effects[0] == Authenticate
    ensures Authorized(req) <==> effects[|effects| - 1] == Disconnect
    ensures Disconnect !in effects[..|effects| - 1]
    ensures resp.status == 200 <==> resp.body.VideoBody?
    ensures resp.status == 200 <==> req.create.Created? && exists d :: CreateVideo(d) in effects
    ensures forall i :: 0 <= i < |effects| && effects[i].CreateVideo? ==>
      0 < i && effects[i - 1].UploadFile?
      && req.upload.Uploaded? && effects[i].data.publicId == req.upload.result.publicId
  {
    effects := [Authenticate];
    var userId: Option<string>;
    match req.auth {
      case AuthThrew =>
        resp := Failure(500, AuthFailedMessage);
        return;
      case AuthReturned(authUserId) =>
        userId := authUserId;
    }
    if !TruthyString(userId) {
      resp := Failure(401, UnauthorizedMessage);
      return;
    }

    // try { ... } catch { ... }
    if !CredentialsPresent(req.env) {
      resp := Failure(500, CredentialsMissingMessage);
    } else {
      effects := effects + [ReadForm];
      match req.form {
        case FormParseFailed =>
          resp := Failure(500, UploadFailedMessage);
        case FormParsed(entries) =>
          var file := FormGet(entries, "file");
          if !TruthyFormValue(file) {
            resp := Failure(400, NoFileMessage);
          } else if file.value.Text? {
            resp := Failure(500, UploadFailedMessage);
          } else {
            effects := effects + [UploadFile(file.value.content)];
            match req.upload {
              case UploadFailed =>
                resp := Failure(500, UploadFailedMessage);
              case Uploaded(result) =>
                var data := RecordData(entries, result);
                effects := effects + [CreateVideo(data)];
                match req.create {
                  case CreateFailed =>
                    resp := Failure(500, UploadFailedMessage);
                  case Created(id, createdAt, updatedAt) =>
                    resp := Response(200, VideoBody(Stored(data, id, createdAt, updatedAt)));
                }
            }
          }
      }
    }
    // finally
    effects := effects + [Disconnect];
  }
}
