/**
 * The fixed wording of the applicant email, with the facts about its
 * characters that the tag-stripping proofs need.
 */
module MailText {
  /** The style attribute of the outer `div`. */
  const DivStyle: string := "div style=\"font-family:Arial,sans-serif;line-height:1.5\""

  const ExecutiveEmail: string := "executive@healthmatters.clinic"

  /** Fixed sentences of the template. */
  const ThanksLead: string := "Thank you for your interest in serving on our "
  const ThanksTail: string := ". Your application has been received."
  const ReviewStep: string := "Governance review and follow-up if anything is missing."
  const MeetingStep: string := "Invitation to the next Board/CAB meeting (calendar hold sent separately)."
  const OrientationLead: string := "Self-paced orientation: "
  const ContactLead: string := "If you have questions, contact "

  // The solver does not see through a long literal at once: each fact
  // below is shown on growing prefixes of the literal.

  lemma DivStylePlain() ensures '>' !in DivStyle
  {
    assert '>' !in "div style=\"font-family:";
    assert '>' !in "div style=\"font-family:Arial,sans-serif;";
    assert '>' !in "div style=\"font-family:Arial,sans-serif;line-height:";
    assert '>' !in "div style=\"font-family:Arial,sans-serif;line-height:1.5\"";
  }

  lemma ThanksLeadPlain() ensures '<' !in ThanksLead
  {
    assert '<' !in "Thank you ";
    assert '<' !in "Thank you for your ";
    assert '<' !in "Thank you for your interest ";
    assert '<' !in "Thank you for your interest in serving ";
    assert '<' !in "Thank you for your interest in serving on our ";
  }

  lemma ThanksTailPlain() ensures '<' !in ThanksTail
  {
    assert '<' !in ". Your application ";
    assert '<' !in ". Your application has been ";
    assert '<' !in ". Your application has been received.";
  }

  lemma ReviewPlain() ensures '<' !in ReviewStep
  {
    assert '<' !in "Governance ";
    assert '<' !in "Governance review and ";
    assert '<' !in "Governance review and follow-up ";
    assert '<' !in "Governance review and follow-up if anything ";
    assert '<' !in "Governance review and follow-up if anything is missing.";
  }

  lemma MeetingPlain() ensures '<' !in MeetingStep
  {
    assert '<' !in "Invitation ";
    assert '<' !in "Invitation to the next ";
    assert '<' !in "Invitation to the next Board/CAB ";
    assert '<' !in "Invitation to the next Board/CAB meeting (calendar ";
    assert '<' !in "Invitation to the next Board/CAB meeting (calendar hold sent ";
    assert '<' !in "Invitation to the next Board/CAB meeting (calendar hold sent separately).";
  }

  lemma OrientationPlain() ensures '<' !in OrientationLead && '>' !in "a href=\""
  {
    assert '<' !in "Self-paced ";
    assert '<' !in "Self-paced orientation:";
    assert '<' !in "Self-paced orientation: ";
  }

  lemma ContactLeadPlain() ensures '<' !in ContactLead
  {
    assert '<' !in "If you have ";
    assert '<' !in "If you have questions,";
    assert '<' !in "If you have questions, contact ";
  }

  lemma ExecutiveEmailPlain() ensures '<' !in ExecutiveEmail && '>' !in ExecutiveEmail
  {
    assert '<' !in "executive@";
    assert '<' !in "executive@healthmatters.";
    assert '<' !in "executive@healthmatters.clinic";
    assert '>' !in "executive@";
    assert '>' !in "executive@healthmatters.";
    assert '>' !in "executive@healthmatters.clinic";
  }
}

/**
 * The two notification emails: `emailOrg` to the organisation and
 * `emailApplicant` to the submitter, as the messages handed to the mail
 * service.
 */
module Mail {
  import opened JsStrings
  import opened Markup
  import opened MailText

  /** One message for the mail service. */
  datatype Message = Message(to: string, from: string, subject: string, text: string, html: string)

  /** `s || d` on strings. */
  function OrDefault(s: string, d: string): (r: string)
    ensures s != "" ==> r == s
    ensures s == "" ==> r == d
    ensures r != "" <==> s != "" || d != ""
  {
    if s != "" then s else d
  }

  const DefaultRole: string := "Board/CAB"
  const DefaultName: string := "Applicant"

  // ----- emailOrg -----

  function OrgSubject(role: string, name: string): string
  {
    "New " + OrDefault(role, DefaultRole) + " application — " + name
  }

  /** `Location: ${[city, state].filter(Boolean).join(', ')}`. */
  function LocationLine(city: string, state: string): string
  {
    "Location: " + Join(NonEmpty([city, state]), ", ")
  }

  /** `Files: ${links?.length ? links.join(' | ') : 'None'}`. */
  function FilesLine(links: seq<string>): string
  {
    "Files: " + (if |links| > 0 then Join(links, " | ") else "None")
  }

  /** The lines of the organisation's plain-text body. */
  function OrgLines(name: string, email: string, role: string, city: string, state: string, links: seq<string>): seq<string>
  {
    [ "A new application was submitted.",
      "",
      "Name: " + name,
      "Email: " + email,
      "Role: " + role,
      LocationLine(city, state),
      FilesLine(links) ]
  }

  /** `emailOrg(...)`: the lines joined by newlines, and the same text inside `<pre>` as HTML. */
  function OrgMail(toEmail: string, fromEmail: string, name: string, email: string, role: string,
                   city: string, state: string, links: seq<string>): Message
  {
    var text := Join(OrgLines(name, email, role, city, state, links), "\n");
    Message(toEmail, fromEmail, OrgSubject(role, name), text, "<pre>" + text + "</pre>")
  }

  // ----- emailApplicant -----

  const ApplicantSubject: string := "We received your application — Health Matters Clinic"

  /** The greeting: the outer `div` opens, then "Dear <name>,". */
  function Opening(name: string): seq<Piece>
  {
    [ Text("\n  "), Tag(DivStyle), Text("\n    "), Tag("p"), Text("Dear " + name + ","), Tag("/p") ]
  }

  /** The thank-you paragraph naming the role. */
  function Thanks(role: string): seq<Piece>
  {
    [ Text("\n    "), Tag("p"),
      Text(ThanksLead + role + ThanksTail),
      Tag("/p") ]
  }

  /** "Next steps" and its ordered list of three items, the last linking the orientation URL. */
  function NextSteps(url: string): seq<Piece>
  {
    [ Text("\n    "), Tag("p"), Tag("strong"), Text("Next steps"), Tag("/strong"), Tag("/p"),
      Text("\n    "), Tag("ol"),
      Text("\n      "), Tag("li"), Text(ReviewStep), Tag("/li"),
      Text("\n      "), Tag("li"),
      Text(MeetingStep), Tag("/li"),
      Text("\n      "), Tag("li"), Text(OrientationLead), Tag("a href=\"" + url + "\""),
      Text(url), Tag("/a"), Tag("/li"),
      Text("\n    "), Tag("/ol") ]
  }

  /** The contact paragraph with its `mailto:` link. */
  function Questions(): seq<Piece>
  {
    [ Text("\n    "), Tag("p"), Text(ContactLead),
      Tag("a href=\"mailto:" + ExecutiveEmail + "\""), Text(ExecutiveEmail), Tag("/a"), Text("."), Tag("/p") ]
  }

  /** The signature, and the outer `div` closes. */
  function Closing(): seq<Piece>
  {
    [ Text("\n    "), Tag("p"), Text("Sincerely,"), Tag("br/"), Text("Health Matters Clinic"), Tag("/p"),
      Text("\n  "), Tag("/div") ]
  }

  /** The applicant's HTML body, piece by piece, as the template literal spells it. */
  function ApplicantPieces(name: string, role: string, url: string): seq<Piece>
  {
    Opening(name) + Thanks(role) + NextSteps(url) + Questions() + Closing()
  }

  /** `emailApplicant(...)`: defaults filled in, text derived from the HTML by stripping tags. */
  function ApplicantMail(fromEmail: string, orientUrl: string, name: string, email: string, role: string): Message
  {
    var html := Render(ApplicantPieces(OrDefault(name, DefaultName), OrDefault(role, DefaultRole), orientUrl));
    Message(email, fromEmail, ApplicantSubject, StripTags(html), html)
  }

  // ----- properties -----

  /** The Location line joins only the non-empty parts of city and state. */
  lemma LocationCases(city: string, state: string)
    ensures city != "" && state != "" ==> LocationLine(city, state) == "Location: " + city + ", " + state
    ensures city != "" && state == "" ==> LocationLine(city, state) == "Location: " + city
    ensures city == "" && state != "" ==> LocationLine(city, state) == "Location: " + state
    ensures city == "" && state == "" ==> LocationLine(city, state) == "Location: "
  {
    assert [city, state][1..] == [state];
    assert [state][1..] == [];
    var tail := if state == "" then [] else [state];
    assert NonEmpty([state]) == tail;
    assert NonEmpty([city, state]) == (if city == "" then [] else [city]) + tail;
    if city != "" && state != "" {
      assert [city] + tail == [city, state];
      assert Join([city, state], ", ") == city + ", " + Join([state], ", ");
    }
  }

  /**
   * The Files line says "None" for no links; otherwise splitting what follows
   * "Files: " on " | " gives the links back, when no link holds a space.
   */
  lemma FilesLineCases(links: seq<string>)
    ensures links == [] ==> FilesLine(links) == "Files: None"
    ensures links != [] && (forall i :: 0 <= i < |links| ==> ' ' !in links[i]) ==>
      SplitOn(FilesLine(links)[7..], " | ") == links
  {
    if links != [] && (forall i :: 0 <= i < |links| ==> ' ' !in links[i]) {
      var line := FilesLine(links);
      assert line[7..] == Join(links, " | ");
      SplitJoin(links, " | ");
    }
  }

  /**
   * The organisation's text is its seven lines: splitting on newlines gives
   * them back when no field holds a newline.
   */
  lemma OrgTextLines(name: string, email: string, role: string, city: string, state: string, links: seq<string>)
    requires '\n' !in name && '\n' !in email && '\n' !in role && '\n' !in city && '\n' !in state
    requires forall i :: 0 <= i < |links| ==> '\n' !in links[i]
    ensures var m := OrgMail("", "", name, email, role, city, state, links);
      SplitOn(m.text, "\n") == OrgLines(name, email, role, city, state, links)
  {
    var lines := OrgLines(name, email, role, city, state, links);
    var kept := NonEmpty([city, state]);
    forall i | 0 <= i < |kept| ensures '\n' !in kept[i] {
      assert kept[i] in [city, state];
    }
    JoinAvoids(kept, ", ", '\n');
    JoinAvoids(links, " | ", '\n');
    assert "None"[0] != '\n';
    forall i | 0 <= i < |lines| ensures "\n"[0] !in lines[i] {
      if i == 5 {
        assert lines[5] == "Location: " + Join(kept, ", ");
      }
    }
    SplitJoin(lines, "\n");
  }

  /** Text with no '<' wrapped in `<pre>`: stripping the tags gives the text back. */
  lemma PreStrips(text: string)
    requires '<' !in text
    ensures StripTags("<pre>" + text + "</pre>") == text
  {
    var pieces := [Tag("pre"), Text(text), Tag("/pre")];
    assert Render(pieces) == "<pre>" + text + "</pre>" by {
      assert Render(pieces[2..]) == "</pre>";
    }
    assert Visible(pieces) == text by {
      assert Visible(pieces[2..]) == "";
      assert Visible(pieces[1..]) == text + "";
    }
    StripRendered(pieces);
  }

  /**
   * The organisation's HTML is its text inside `<pre>`: stripping the tags
   * gives the text back when no field holds a '<'.
   */
  lemma OrgHtmlStrips(toEmail: string, fromEmail: string, name: string, email: string, role: string,
                      city: string, state: string, links: seq<string>)
    requires '<' !in name && '<' !in email && '<' !in role && '<' !in city && '<' !in state
    requires forall i :: 0 <= i < |links| ==> '<' !in links[i]
    ensures var m := OrgMail(toEmail, fromEmail, name, email, role, city, state, links);
      StripTags(m.html) == m.text
  {
    var lines := OrgLines(name, email, role, city, state, links);
    var kept := NonEmpty([city, state]);
    forall i | 0 <= i < |kept| ensures '<' !in kept[i] {
      assert kept[i] in [city, state];
    }
    JoinAvoids(kept, ", ", '<');
    JoinAvoids(links, " | ", '<');
    forall i | 0 <= i < |lines| ensures '<' !in lines[i] {
      if i == 5 {
        assert lines[5] == "Location: " + Join(kept, ", ");
      }
    }
    JoinAvoids(lines, "\n", '<');
    PreStrips(Join(lines, "\n"));
  }

  /** The subject names the role (or the default) and ends with the applicant's name. */
  lemma OrgSubjectParts(role: string, name: string)
    ensures role == "" ==> OrgSubject(role, name) == "New Board/CAB application — " + name
    ensures role != "" ==> OrgSubject(role, name) == "New " + role + " application — " + name
    ensures OrgSubject(role, name)[|OrgSubject(role, name)| - |name|..] == name
  {
  }

  lemma OpeningWellFormed(name: string)
    requires '<' !in name
    ensures WellFormed(Opening(name))
  {
    DivStylePlain();
  }

  lemma ThanksWellFormed(role: string)
    requires '<' !in role
    ensures WellFormed(Thanks(role))
  {
    ThanksLeadPlain();
    ThanksTailPlain();
  }

  lemma NextStepsWellFormed(url: string)
    requires '<' !in url && '>' !in url
    ensures WellFormed(NextSteps(url))
  {
    ReviewPlain();
    MeetingPlain();
    OrientationPlain();
  }

  lemma QuestionsWellFormed()
    ensures WellFormed(Questions())
  {
    ContactLeadPlain();
    ExecutiveEmailPlain();
  }

  lemma ClosingWellFormed()
    ensures WellFormed(Closing())
  {
    assert '<' !in "Health Matters ";
    assert '<' !in "Health Matters Clinic";
  }

  /** With no '<' in the name, role and URL and no '>' in the URL, every piece of the template is well formed. */
  lemma ApplicantPiecesWellFormed(name: string, role: string, url: string)
    requires '<' !in name && '<' !in role && '<' !in url && '>' !in url
    ensures WellFormed(ApplicantPieces(name, role, url))
  {
    var a, b, c, d, e := Opening(name), Thanks(role), NextSteps(url), Questions(), Closing();
    OpeningWellFormed(name);
    ThanksWellFormed(role);
    NextStepsWellFormed(url);
    QuestionsWellFormed();
    ClosingWellFormed();
    WellFormedAppend(a, b);
    WellFormedAppend(a + b, c);
    WellFormedAppend(a + b + c, d);
    WellFormedAppend(a + b + c + d, e);
  }

  /**
   * The acknowledgement goes to the applicant under the fixed subject, its
   * text is never longer than its HTML, and a missing name or role is
   * replaced by "Applicant" or "Board/CAB".
   */
  lemma ApplicantMailShape(fromEmail: string, orientUrl: string, name: string, email: string, role: string)
    ensures var m := ApplicantMail(fromEmail, orientUrl, name, email, role);
      && m.to == email && m.from == fromEmail
      && m.subject == "We received your application — Health Matters Clinic"
      && |m.text| <= |m.html|
      && m.html == Render(ApplicantPieces(if name == "" then "Applicant" else name,
                                          if role == "" then "Board/CAB" else role, orientUrl))
  {
  }

  /**
   * The applicant's text is exactly the template's text without its tags,
   * when the filled-in values hold no '<' and the URL no '>'.
   */
  lemma ApplicantTextIsVisible(fromEmail: string, orientUrl: string, name: string, email: string, role: string)
    requires '<' !in name && '<' !in role && '<' !in orientUrl && '>' !in orientUrl
    ensures var m := ApplicantMail(fromEmail, orientUrl, name, email, role);
      m.text == Visible(ApplicantPieces(OrDefault(name, DefaultName), OrDefault(role, DefaultRole), orientUrl))
  {
    var n, r := OrDefault(name, DefaultName), OrDefault(role, DefaultRole);
    ApplicantPiecesWellFormed(n, r, orientUrl);
    StripRendered(ApplicantPieces(n, r, orientUrl));
  }
}
