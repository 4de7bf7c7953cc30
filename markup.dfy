/**
 * `html.replace(/<[^>]+>/g, '')`: the derivation of the plain-text body of
 * the applicant email from its HTML body.
 */
module Markup {
  import opened JsStrings

  /**
   * Length of the match of `<[^>]+>` at the start of `s`, or 0 when the
   * pattern does not match there: a '<', at least one character other than
   * '>', then the first '>' after them.
   */
  function TagLength(s: string): (n: nat)
    ensures n <= |s|
    ensures n > 0 ==> n >= 3 && s[0] == '<' && s[n - 1] == '>'
    ensures n > 0 ==> forall k :: 1 <= k < n - 1 ==> s[k] != '>'
    ensures n == 0 && 2 <= |s| && s[0] == '<' && s[1] != '>' ==> forall q :: 2 <= q < |s| ==> s[q] != '>'
  {
    if s != [] && s[0] == '<' then
      var k := Find(s[1..], ">");
      if 0 < k < |s| - 1 then
        OccursAtChar(s[1..], '>', k);
        forall j | 1 <= j < k + 1 ensures s[j] != '>' {
          OccursAtChar(s[1..], '>', j - 1);
        }
        k + 2
      else
        if k == 0 then
          OccursAtChar(s[1..], '>', 0);
          0
        else
          // no '>' anywhere after the '<'
          forall j | 1 <= j < |s| ensures s[j] != '>' {
            OccursAtChar(s[1..], '>', j - 1);
          }
          0
    else 0
  }

  /** Every match of `<[^>]+>` removed, scanning left to right as a global replace does. */
  function StripTags(s: string): (r: string)
    ensures |r| <= |s|
    decreases |s|
  {
    if s == [] then ""
    else
      var n := TagLength(s);
      if n > 0 then StripTags(s[n..])
      else [s[0]] + StripTags(s[1..])
  }

  /** Stripping adds no character. */
  lemma {:induction false} StripTagsAvoids(s: string, c: char)
    requires c !in s
    ensures c !in StripTags(s)
    decreases |s|
  {
    if s != [] {
      var n := TagLength(s);
      if n > 0 {
        assert forall k :: 0 <= k < |s| - n ==> s[n..][k] == s[n + k];
        StripTagsAvoids(s[n..], c);
      } else {
        assert forall k :: 0 <= k < |s| - 1 ==> s[1..][k] == s[1 + k];
        StripTagsAvoids(s[1..], c);
      }
    }
  }

  /** Stripping tags twice is stripping them once: what remains holds no tag. */
  lemma {:induction false} StripTagsIdempotent(s: string)
    ensures StripTags(StripTags(s)) == StripTags(s)
    decreases |s|
  {
    if s != [] {
      var n := TagLength(s);
      if n > 0 {
        StripTagsIdempotent(s[n..]);
      } else {
        var rest := StripTags(s[1..]);
        var r := [s[0]] + rest;
        StripTagsIdempotent(s[1..]);
        assert TagLength(r) == 0 by {
          if s[0] == '<' {
            var k := Find(s[1..], ">");
            if k == 0 && |s| > 1 {
              // `<>`: the '>' right after the '<' survives, so the '<' still opens no tag
              OccursAtChar(s[1..], '>', 0);
              assert s[1] == '>';
              assert TagLength(s[1..]) == 0;
              assert rest == [s[1]] + StripTags(s[2..]) by { assert s[1..][1..] == s[2..]; }
              assert r[1] == '>';
              OccursAtChar(r[1..], '>', 0);
            } else {
              // no '>' after the '<': none survives in what follows either
              assert '>' !in s[1..] by {
                forall j | 0 <= j < |s| - 1 ensures s[1..][j] != '>' {
                  OccursAtChar(s[1..], '>', j);
                }
              }
              StripTagsAvoids(s[1..], '>');
              FindPlain(rest, ">");
            }
          }
        }
        assert r[1..] == rest;
      }
    }
  }

  /** A piece of markup: literal text, or a tag `<body>`. */
  datatype Piece = Text(text: string) | Tag(body: string)

  /** The markup the pieces spell out. */
  function Render(pieces: seq<Piece>): string
  {
    if pieces == [] then ""
    else
      (match pieces[0]
       case Text(t) => t
       case Tag(b) => "<" + b + ">") + Render(pieces[1..])
  }

  /** The text of the pieces, without their tags. */
  function Visible(pieces: seq<Piece>): string
  {
    if pieces == [] then ""
    else (if pieces[0].Text? then pieces[0].text else "") + Visible(pieces[1..])
  }

  /** A text piece holds no '<'; a tag's body is non-empty and holds no '>'. */
  predicate PieceOk(p: Piece)
  {
    match p
    case Text(t) => '<' !in t
    case Tag(b) => b != "" && '>' !in b
  }

  /** Every piece is well formed, so the pieces can be read back from their rendering. */
  predicate WellFormed(pieces: seq<Piece>)
  {
    forall i :: 0 <= i < |pieces| ==> PieceOk(pieces[i])
  }

  /** A character other than '<' at the front is kept, and stripping goes on after it. */
  lemma StripPlainHead(s: string)
    requires s != [] && s[0] != '<'
    ensures StripTags(s) == [s[0]] + StripTags(s[1..])
  {
    assert TagLength(s) == 0;
  }

  /** Text with no '<' passes through untouched, whatever follows it. */
  lemma {:induction false} StripTextPrefix(t: string, rest: string)
    requires '<' !in t
    ensures StripTags(t + rest) == t + StripTags(rest)
  {
    if t == [] {
      assert t + rest == rest;
    } else {
      var s, x := t + rest, StripTags(rest);
      assert s[0] == t[0];
      assert s[1..] == t[1..] + rest;
      StripPlainHead(s);
      StripTextPrefix(t[1..], rest);
      assert t == [t[0]] + t[1..];
      assert [t[0]] + (t[1..] + x) == t + x;
    }
  }

  /** Text with no '<' is left as it is. */
  lemma StripTagsPlain(s: string)
    requires '<' !in s
    ensures StripTags(s) == s
  {
    StripTextPrefix(s, "");
    assert s + "" == s;
  }

  /** A tag at the front is removed whole, whatever follows it. */
  lemma StripTagPrefix(b: string, rest: string)
    requires b != "" && '>' !in b
    ensures StripTags("<" + b + ">" + rest) == StripTags(rest)
  {
    var s := "<" + b + ">" + rest;
    assert s[1..] == b + ">" + rest;
    FindPlainThenSep(b, ">", rest);
    assert TagLength(s) == |b| + 2;
    assert s[|b| + 2..] == rest;
  }

  /** Pieces side by side: well formed exactly when each part is. */
  lemma WellFormedAppend(a: seq<Piece>, b: seq<Piece>)
    ensures WellFormed(a + b) <==> WellFormed(a) && WellFormed(b)
  {
    if WellFormed(a + b) {
      forall i | 0 <= i < |a| ensures PieceOk(a[i]) {
        assert (a + b)[i] == a[i];
      }
      forall i | 0 <= i < |b| ensures PieceOk(b[i]) {
        assert (a + b)[|a| + i] == b[i];
      }
    }
  }

  /** Stripping well-formed markup leaves exactly its text. */
  lemma {:induction false} StripRendered(pieces: seq<Piece>)
    requires WellFormed(pieces)
    ensures StripTags(Render(pieces)) == Visible(pieces)
  {
    if pieces != [] {
      var head, tail := pieces[0], pieces[1..];
      assert PieceOk(head);
      assert WellFormed(tail) by {
        forall i | 0 <= i < |tail| ensures PieceOk(tail[i]) {
          assert tail[i] == pieces[i + 1];
        }
      }
      StripRendered(tail);
      var rest := Render(tail);
      match head
      case Text(t) =>
        assert Render(pieces) == t + rest;
        StripTextPrefix(t, rest);
      case Tag(b) =>
        assert Render(pieces) == "<" + b + ">" + rest;
        StripTagPrefix(b, rest);
    }
  }
}
