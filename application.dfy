/**
 * From form fields to the ledger row: the required-field check, the
 * collected application, the Drive links and the fixed 22-cell row.
 */
module Application {
  import opened Wrappers
  import opened JsStrings
  import opened FormFields
  import opened DriveUpload

  /** The trimmed name and email that passed the required-field check. */
  datatype Contact = Contact(name: string, email: string)

  /** Every value the handler collects from the form. */
  datatype Application = Application(
    name: string, email: string, role: string, phone: string, occupation: string,
    employer: string, city: string, state: string, resume: string,
    boardExperience: string, skills: string, fundraising: string,
    officerInterest: string, committees: string, conflict: string,
    ref1Name: string, ref1Email: string, ref2Name: string, ref2Email: string,
    bio: string)

  const MissingNameOrEmail: string := "Missing name or email"

  /** `s` holds a character `trim` keeps. */
  predicate HasVisible(s: string)
  {
    exists k :: 0 <= k < |s| && !IsJsSpace(s[k])
  }

  /** The required fields: name and email, coerced to text and trimmed, must both be non-empty. */
  function RequiredFields(fields: Fields): Result<Contact>
  {
    var name := Trim(ToText(Lookup(fields, "name")));
    var email := Trim(ToText(Lookup(fields, "email")));
    if name == "" || email == "" then Err(MissingNameOrEmail) else Ok(Contact(name, email))
  }

  /** `get(split) || get(combined)`: the split reference field wins when it is non-empty. */
  function ReferenceName(fields: Fields, split: string, combined: string): string
  {
    var v := Get(fields, split);
    if v != "" then v else Get(fields, combined)
  }

  /** The values collected after the required-field check. */
  function Collect(fields: Fields, contact: Contact): Application
  {
    Application(
      contact.name, contact.email, Get(fields, "role"), Get(fields, "phone"),
      Get(fields, "occupation"), Get(fields, "employer"), Get(fields, "city"),
      Get(fields, "state"), Get(fields, "resume"), Get(fields, "board_experience"),
      Csv(Lookup(fields, "skills")), Get(fields, "fundraising"),
      Get(fields, "officer_interest"), Csv(Lookup(fields, "committees")),
      Get(fields, "conflict"),
      ReferenceName(fields, "ref1_name", "ref1"), Get(fields, "ref1_email"),
      ReferenceName(fields, "ref2_name", "ref2"), Get(fields, "ref2_email"),
      Get(fields, "bio"))
  }

  /** `u.webViewLink || https://drive.google.com/file/d/<id>/view`. */
  function FileLink(u: DriveFile): (link: string)
    ensures link != ""
  {
    match u.webViewLink
    case Some(l) => if l != "" then l else "https://drive.google.com/file/d/" + u.id + "/view"
    case None => "https://drive.google.com/file/d/" + u.id + "/view"
  }

  /** `uploads.map(FileLink)`. */
  function FileLinks(uploads: seq<DriveFile>): (links: seq<string>)
    ensures |links| == |uploads|
    ensures forall i :: 0 <= i < |uploads| ==> links[i] == FileLink(uploads[i])
  {
    seq(|uploads|, i requires 0 <= i < |uploads| => FileLink(uploads[i]))
  }

  /** A column of the ledger. */
  datatype Column =
    | Timestamp | RoleCol | NameCol | EmailCol | Phone | Occupation | Employer | City | State
    | Resume | BoardExperience | Skills | Fundraising | OfficerInterest | Committees | Conflict
    | Ref1Name | Ref1Email | Ref2Name | Ref2Email | Bio | Links

  /** The ledger's columns, in the order the row fills them. */
  const Columns: seq<Column> := [
    Timestamp, RoleCol, NameCol, EmailCol, Phone, Occupation, Employer, City, State,
    Resume, BoardExperience, Skills, Fundraising, OfficerInterest, Committees, Conflict,
    Ref1Name, Ref1Email, Ref2Name, Ref2Email, Bio, Links]

  /** The row appended to the sheet. */
  function Row(now: string, app: Application, links: seq<string>): (row: seq<string>)
    ensures |row| == 22
  {
    [ now, app.role, app.name, app.email, app.phone,
      app.occupation, app.employer, app.city, app.state,
      app.resume, app.boardExperience, app.skills, app.fundraising, app.officerInterest,
      app.committees, app.conflict,
      app.ref1Name, app.ref1Email, app.ref2Name, app.ref2Email,
      app.bio, Join(links, ", ") ]
  }

  /** The value that belongs under a column. */
  function Cell(now: string, app: Application, links: seq<string>, c: Column): string
  {
    match c
    case Timestamp => now
    case RoleCol => app.role
    case NameCol => app.name
    case EmailCol => app.email
    case Phone => app.phone
    case Occupation => app.occupation
    case Employer => app.employer
    case City => app.city
    case State => app.state
    case Resume => app.resume
    case BoardExperience => app.boardExperience
    case Skills => app.skills
    case Fundraising => app.fundraising
    case OfficerInterest => app.officerInterest
    case Committees => app.committees
    case Conflict => app.conflict
    case Ref1Name => app.ref1Name
    case Ref1Email => app.ref1Email
    case Ref2Name => app.ref2Name
    case Ref2Email => app.ref2Email
    case Bio => app.bio
    case Links => Join(links, ", ")
  }

  // ----- required fields -----

  /**
   * The check passes exactly when both name and email hold a non-space
   * character, and what passes is trimmed.
   */
  lemma RequiredFieldsIff(fields: Fields)
    ensures RequiredFields(fields).Ok? <==>
      HasVisible(ToText(Lookup(fields, "name"))) && HasVisible(ToText(Lookup(fields, "email")))
    ensures RequiredFields(fields).Err? ==> RequiredFields(fields).message == MissingNameOrEmail
    ensures RequiredFields(fields).Ok? ==>
      var c := RequiredFields(fields).value;
      c.name != "" && !IsJsSpace(c.name[0]) && !IsJsSpace(c.name[|c.name| - 1]) &&
      c.email != "" && !IsJsSpace(c.email[0]) && !IsJsSpace(c.email[|c.email| - 1])
  {
    var name, email := ToText(Lookup(fields, "name")), ToText(Lookup(fields, "email"));
    TrimmedNonEmpty(name);
    TrimmedNonEmpty(email);
  }

  /** A string trims to something exactly when it has a non-space character, and the result is trimmed. */
  lemma TrimmedNonEmpty(s: string)
    ensures Trim(s) != "" <==> HasVisible(s)
    ensures Trim(s) != "" ==> !IsJsSpace(Trim(s)[0]) && !IsJsSpace(Trim(s)[|Trim(s)| - 1])
  {
    TrimEmptyIff(s);
    TrimShape(s);
  }

  /**
   * An array-valued name prints with ',' between its items, so a name
   * control sent twice with blanks passes the check as ",".
   */
  lemma RepeatedBlankNamePasses(email: string)
    requires email != "" && !IsJsSpace(email[0]) && !IsJsSpace(email[|email| - 1])
    ensures RequiredFields(map["name" := Multi(["", ""]), "email" := Scalar(email)]) == Ok(Contact(",", email))
  {
    var fields := map["name" := Multi(["", ""]), "email" := Scalar(email)];
    assert ToText(Lookup(fields, "name")) == ",";
    assert TrimStart(email) == email;
    assert TrimEnd(email) == email;
  }

  /**
   * Whatever its items are, a name sent as an array of two or more items
   * prints with a ',' in it, so it always passes the name half of the check.
   */
  lemma ArrayNameAlwaysPasses(fields: Fields)
    requires "name" in fields && fields["name"].Multi? && |fields["name"].items| >= 2
    ensures HasVisible(ToText(Lookup(fields, "name")))
    ensures RequiredFields(fields).Ok? <==> HasVisible(ToText(Lookup(fields, "email")))
  {
    var items := fields["name"].items;
    var text := ToText(Lookup(fields, "name"));
    assert text == items[0] + "," + Join(items[1..], ",");
    assert text[|items[0]|] == ',';
    RequiredFieldsIff(fields);
  }

  // ----- references -----

  /** The combined field is read only when the split name field is empty. */
  lemma ReferencePrecedence(fields: Fields, contact: Contact)
    ensures Get(fields, "ref1_name") != "" ==> Collect(fields, contact).ref1Name == Get(fields, "ref1_name")
    ensures Get(fields, "ref1_name") == "" ==> Collect(fields, contact).ref1Name == Get(fields, "ref1")
    ensures Get(fields, "ref2_name") != "" ==> Collect(fields, contact).ref2Name == Get(fields, "ref2_name")
    ensures Get(fields, "ref2_name") == "" ==> Collect(fields, contact).ref2Name == Get(fields, "ref2")
  {
  }

  /**
   * A reference email comes from its own field only, and a reference name
   * from its split and combined fields only: any two forms that agree on
   * those fields give the same values.
   */
  lemma ReferenceSources(f: Fields, g: Fields, contact: Contact)
    ensures Lookup(f, "ref1_email") == Lookup(g, "ref1_email") ==>
      Collect(f, contact).ref1Email == Collect(g, contact).ref1Email
    ensures Lookup(f, "ref2_email") == Lookup(g, "ref2_email") ==>
      Collect(f, contact).ref2Email == Collect(g, contact).ref2Email
    ensures Lookup(f, "ref1_name") == Lookup(g, "ref1_name") && Lookup(f, "ref1") == Lookup(g, "ref1") ==>
      Collect(f, contact).ref1Name == Collect(g, contact).ref1Name
    ensures Lookup(f, "ref2_name") == Lookup(g, "ref2_name") && Lookup(f, "ref2") == Lookup(g, "ref2") ==>
      Collect(f, contact).ref2Name == Collect(g, contact).ref2Name
  {
  }

  // ----- links and the row -----

  /** The links cell is empty exactly when no upload succeeded. */
  lemma LinksCellEmptyIff(uploads: seq<DriveFile>)
    ensures Join(FileLinks(uploads), ", ") == "" <==> uploads == []
  {
    if uploads != [] {
      JoinNonEmpty(FileLinks(uploads), ", ", 0);
    }
  }

  /** A link is the Drive view link when Drive gave a non-empty one, and the id's file URL otherwise. */
  lemma FileLinkChoice(u: DriveFile)
    ensures u.webViewLink.Some? && u.webViewLink.value != "" ==> FileLink(u) == u.webViewLink.value
    ensures !(u.webViewLink.Some? && u.webViewLink.value != "") ==>
      FileLink(u) == "https://drive.google.com/file/d/" + u.id + "/view"
  {
  }

  /** Each of the 22 columns appears once. */
  lemma ColumnsDistinct()
    ensures |Columns| == 22
    ensures forall i, j :: 0 <= i < j < |Columns| ==> Columns[i] != Columns[j]
  {
  }

  /** The row has one cell per column, each holding that column's value. */
  lemma RowFollowsColumns(now: string, app: Application, links: seq<string>)
    ensures |Row(now, app, links)| == |Columns| == 22
    ensures forall i :: 0 <= i < |Columns| ==> Row(now, app, links)[i] == Cell(now, app, links, Columns[i])
  {
  }

  /**
   * The row of a collected form: name and email are the checked values, the
   * single-valued fields are `get`'s, the repeatable ones `csv`'s, and the
   * last cell is empty exactly when no upload succeeded.
   */
  lemma RowOfForm(now: string, fields: Fields, contact: Contact, uploads: seq<DriveFile>)
    ensures var row := Row(now, Collect(fields, contact), FileLinks(uploads));
      && |row| == 22
      && row[0] == now
      && row[1] == Get(fields, "role")
      && row[2] == contact.name
      && row[3] == contact.email
      && row[11] == Csv(Lookup(fields, "skills"))
      && row[14] == Csv(Lookup(fields, "committees"))
      && (row[21] == "" <==> uploads == [])
  {
    LinksCellEmptyIff(uploads);
  }
}
