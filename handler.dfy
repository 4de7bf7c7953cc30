/**
 * The request handler: method dispatch, the required-field check, the Drive
 * uploads, the ledger append and the two emails, with every thrown error
 * turned into a 500 response. The outside services are an oracle: what each
 * call answers is part of the input, and the handler's calls to them are
 * recorded, in order, as effects.
 */
module Handler {
  import opened Wrappers
  import opened JsStrings
  import opened FormFields
  import opened DriveUpload
  import opened Application
  import opened Mail
  import opened Config

  /** The JSON body: none (`end()`), `{ ok: true }`, or `{ ok: false, error }`. */
  datatype Body = NoBody | Success | Failure(error: string)

  datatype Response = Response(status: int, body: Body)

  /** A call the handler makes to an outside service. */
  datatype Effect =
    | CreateFile(request: CreateRequest)
    | AppendRow(spreadsheetId: string, range: string, row: seq<string>)
    | SendMail(message: Message)

  /** What the multipart parser hands back: the fields and files, or the error it rejects with. */
  datatype Parsed = Form(fields: Fields, files: FilesObj) | ParseFailed(message: string)

  /**
   * The answers of the outside world to one request: whether building the
   * Google clients throws (and with what message), the parsed form, the
   * clock, Drive's answer to each create call, and whether the append and
   * each email send throw.
   */
  datatype Services = Services(
    clientsError: Option<string>, form: Parsed, now: string, drive: seq<Outcome>,
    appendError: Option<string>, orgMailError: Option<string>, applicantMailError: Option<string>)

  const SheetRange: string := "Submissions!A1"
  const MethodNotAllowed: string := "Method not allowed"

  /** `String(err?.message || err)` for an error with this message: an `Error` with no message prints as "Error". */
  function ErrorText(message: string): (text: string)
    ensures text != ""
    ensures message != "" ==> text == message
  {
    if message != "" then message else "Error"
  }

  /** The create calls, as effects. */
  function Creates(calls: seq<CreateRequest>): (effects: seq<Effect>)
    ensures |effects| == |calls|
    ensures forall i :: 0 <= i < |calls| ==> effects[i] == CreateFile(calls[i])
  {
    seq(|calls|, i requires 0 <= i < |calls| => CreateFile(calls[i]))
  }

  /**
   * Every call a valid submission leads to, in order: the Drive creates, the
   * ledger append, the email to the organisation and the one to the applicant.
   */
  function Planned(cfg: Config, now: string, fields: Fields, files: FilesObj, contact: Contact, drive: seq<Outcome>): seq<Effect>
  {
    var calls := Requests(cfg.driveFolderId, Flatten(files));
    var links := FileLinks(Successes(drive, |calls|));
    var app := Collect(fields, contact);
    Creates(calls)
      + [ AppendRow(cfg.sheetId, SheetRange, Row(now, app, links)),
          SendMail(OrgMail(cfg.toEmail, cfg.fromEmail, contact.name, contact.email, app.role, app.city, app.state, links)),
          SendMail(ApplicantMail(cfg.fromEmail, cfg.orientUrl, contact.name, contact.email, app.role)) ]
  }

  /** The number of Drive create calls a submission makes. */
  function CallCount(cfg: Config, files: FilesObj): nat
  {
    |Requests(cfg.driveFolderId, Flatten(files))|
  }

  /** `handler(req, res)`: the response, and the outside calls it made in order. */
  method Handle(httpMethod: string, cfg: Config, svc: Services) returns (resp: Response, effects: seq<Effect>)
    ensures resp.status in {200, 400, 405, 500}
    ensures httpMethod == "OPTIONS" ==> resp == Response(200, NoBody) && effects == []
    ensures httpMethod != "OPTIONS" && httpMethod != "POST" ==>
      resp == Response(405, Failure(MethodNotAllowed)) && effects == []
    ensures httpMethod == "POST" && svc.clientsError.Some? ==>
      resp == Response(500, Failure(ErrorText(svc.clientsError.value))) && effects == []
    ensures httpMethod == "POST" && svc.clientsError.None? && svc.form.ParseFailed? ==>
      resp == Response(500, Failure(ErrorText(svc.form.message))) && effects == []
    ensures httpMethod == "POST" && svc.clientsError.None? && svc.form.Form? && RequiredFields(svc.form.fields).Err? ==>
      resp == Response(400, Failure(MissingNameOrEmail)) && effects == []
    ensures httpMethod == "POST" && svc.clientsError.None? && svc.form.Form? && RequiredFields(svc.form.fields).Ok? ==>
      Submitted(cfg, svc, RequiredFields(svc.form.fields).value, resp, effects)
  {
    if httpMethod == "OPTIONS" {
      return Response(200, NoBody), [];
    }
    if httpMethod != "POST" {
      return Response(405, Failure(MethodNotAllowed)), [];
    }
    if svc.clientsError.Some? {
      return Response(500, Failure(ErrorText(svc.clientsError.value))), [];
    }
    if svc.form.ParseFailed? {
      return Response(500, Failure(ErrorText(svc.form.message))), [];
    }
    var checked := RequiredFields(svc.form.fields);
    if checked.Err? {
      return Response(400, Failure(checked.message)), [];
    }
    resp, effects := Submit(cfg, svc, checked.value);
  }

  /**
   * The outcome of a valid submission: the planned calls up to and including
   * the first one that throws, answered with 500 and that error's text; all
   * of them and 200 when none throws. Drive failures do not count: they are
   * swallowed by the upload loop.
   */
  predicate Submitted(cfg: Config, svc: Services, contact: Contact, resp: Response, effects: seq<Effect>)
    requires svc.form.Form?
  {
    var planned := Planned(cfg, svc.now, svc.form.fields, svc.form.files, contact, svc.drive);
    var k := CallCount(cfg, svc.form.files);
    && (svc.appendError.Some? ==>
          resp == Response(500, Failure(ErrorText(svc.appendError.value))) && effects == planned[..k + 1])
    && (svc.appendError.None? && svc.orgMailError.Some? ==>
          resp == Response(500, Failure(ErrorText(svc.orgMailError.value))) && effects == planned[..k + 2])
    && (svc.appendError.None? && svc.orgMailError.None? && svc.applicantMailError.Some? ==>
          resp == Response(500, Failure(ErrorText(svc.applicantMailError.value))) && effects == planned)
    && (svc.appendError.None? && svc.orgMailError.None? && svc.applicantMailError.None? ==>
          resp == Response(200, Success) && effects == planned)
  }

  /** The body of the `try` after the required-field check: upload, append, and the two emails. */
  method Submit(cfg: Config, svc: Services, contact: Contact) returns (resp: Response, effects: seq<Effect>)
    requires svc.form.Form?
    ensures resp.status in {200, 500}
    ensures Submitted(cfg, svc, contact, resp, effects)
  {
    var fields, files := svc.form.fields, svc.form.files;
    var app := Collect(fields, contact);

    var uploads, calls := UploadFilesToDrive(cfg.driveFolderId, files, svc.drive);
    effects := Creates(calls);
    var links := FileLinks(uploads);

    effects := effects + [AppendRow(cfg.sheetId, SheetRange, Row(svc.now, app, links))];
    ghost var planned := Planned(cfg, svc.now, fields, files, contact, svc.drive);
    assert effects == planned[..|calls| + 1];
    if svc.appendError.Some? {
      return Response(500, Failure(ErrorText(svc.appendError.value))), effects;
    }

    effects := effects + [SendMail(OrgMail(cfg.toEmail, cfg.fromEmail, contact.name, contact.email, app.role, app.city, app.state, links))];
    assert effects == planned[..|calls| + 2];
    if svc.orgMailError.Some? {
      return Response(500, Failure(ErrorText(svc.orgMailError.value))), effects;
    }

    effects := effects + [SendMail(ApplicantMail(cfg.fromEmail, cfg.orientUrl, contact.name, contact.email, app.role))];
    assert effects == planned;
    if svc.applicantMailError.Some? {
      return Response(500, Failure(ErrorText(svc.applicantMailError.value))), effects;
    }
    return Response(200, Success), effects;
  }

  // ----- properties of the planned calls -----

  /**
   * The planned calls are the Drive creates, one per usable file item and in
   * their order, then exactly one append of the 22-cell row to the ledger,
   * then the organisation's email, then the applicant's.
   */
  lemma PlannedShape(cfg: Config, now: string, fields: Fields, files: FilesObj, contact: Contact, drive: seq<Outcome>)
    ensures var planned, k := Planned(cfg, now, fields, files, contact, drive), CallCount(cfg, files);
      && |planned| == k + 3
      && (forall i :: 0 <= i < k ==> planned[i] == CreateFile(Requests(cfg.driveFolderId, Flatten(files))[i]))
      && planned[k].AppendRow? && planned[k].spreadsheetId == cfg.sheetId && planned[k].range == SheetRange
      && |planned[k].row| == 22
      && planned[k + 1].SendMail? && planned[k + 1].message.to == cfg.toEmail
      && planned[k + 1].message.from == cfg.fromEmail
      && planned[k + 2].SendMail? && planned[k + 2].message.to == contact.email
      && planned[k + 2].message.from == cfg.fromEmail
  {
  }

  /** Every create call goes to the configured folder, and no row is appended before the last of them. */
  lemma CreatesGoToFolder(cfg: Config, now: string, fields: Fields, files: FilesObj, contact: Contact, drive: seq<Outcome>)
    ensures var planned := Planned(cfg, now, fields, files, contact, drive);
      forall i :: 0 <= i < |planned| && planned[i].CreateFile? ==>
        planned[i].request.parent == cfg.driveFolderId && i < CallCount(cfg, files)
  {
    var calls := Requests(cfg.driveFolderId, Flatten(files));
    RequestsShape(cfg.driveFolderId, Flatten(files));
    var planned := Planned(cfg, now, fields, files, contact, drive);
    forall i | 0 <= i < |planned| && planned[i].CreateFile?
      ensures planned[i].request.parent == cfg.driveFolderId && i < |calls|
    {
      if i < |calls| {
        assert planned[i].request == calls[i];
        assert calls[i] in calls;
      }
    }
  }

  /**
   * The ledger row and the organisation's email carry the same links: one
   * per file Drive created, in call order, and the row's last cell is empty
   * exactly when no file was created.
   */
  lemma RowAndMailShareLinks(cfg: Config, now: string, fields: Fields, files: FilesObj, contact: Contact, drive: seq<Outcome>)
    ensures var planned, k := Planned(cfg, now, fields, files, contact, drive), CallCount(cfg, files);
      var uploads := Successes(drive, k);
      && planned[k].row[21] == Join(FileLinks(uploads), ", ")
      && planned[k + 1].message == OrgMail(cfg.toEmail, cfg.fromEmail, contact.name, contact.email,
           Get(fields, "role"), Get(fields, "city"), Get(fields, "state"), FileLinks(uploads))
      && (planned[k].row[21] == "" <==> uploads == [])
  {
    var k := CallCount(cfg, files);
    LinksCellEmptyIff(Successes(drive, k));
  }
}
