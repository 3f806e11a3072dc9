/** The subset of Python's `str.format` that `_format_message` relies on:
    literal text, named replacement fields `{name}` looked up among the keyword
    arguments, and the escapes `{{` and `}}`.

    `Format` works through the template from left to right, as `str.format`
    does, and fails at the first problem it meets. `Parse` and `Unparse` give
    the structure of a template as a sequence of pieces; the lemmas below tie
    the two views together. */
module Formatting {
  import opened Wrappers

  /** Why `str.format` raises: a field name that is not among the keyword
      arguments (KeyError, or IndexError for `{}`), or a brace that does not
      belong to an escape or a field (ValueError). */
  datatype FormatError = UnknownField(name: string) | Malformed

  /** One unit of a template: a character of literal text, or a replacement field. */
  datatype Piece = Literal(c: char) | Field(name: string)

  /** A piece read from the front of a template, and how many characters it spans. */
  datatype Token = Token(piece: Piece, width: nat)

  predicate IsBrace(c: char) {
    c == '{' || c == '}'
  }

  predicate BraceFree(s: string) {
    forall i :: 0 <= i < |s| ==> !IsBrace(s[i])
  }

  /** The template text of one piece; literal braces are written doubled. */
  function PieceText(p: Piece): string {
    match p
    case Literal(c) => if c == '{' then "{{" else if c == '}' then "}}" else [c]
    case Field(name) => "{" + name + "}"
  }

  /** A piece whose text reads back as that piece: a field name holds no brace. */
  predicate Readable(p: Piece) {
    p.Field? ==> BraceFree(p.name)
  }

  /** The length of the field name at the front of `s`: everything up to the
      first brace. */
  function NameLength(s: string): (n: nat)
    ensures n <= |s|
    ensures BraceFree(s[..n])
    ensures n < |s| ==> IsBrace(s[n])
  {
    if s == [] || IsBrace(s[0]) then 0 else 1 + NameLength(s[1..])
  }

  /** The piece at the front of a non-empty template, or None when the front
      is a lone `}`, or a `{` that no `}` closes before the next `{` or the
      end of the template. */
  function Scan(t: string): (r: Option<Token>)
    requires t != []
    ensures r.Some? ==> 0 < r.value.width <= |t| && t[..r.value.width] == PieceText(r.value.piece)
    ensures r.Some? ==> Readable(r.value.piece)
  {
    if t[0] == '{' && |t| > 1 && t[1] == '{' then Some(Token(Literal('{'), 2))
    else if t[0] == '}' && |t| > 1 && t[1] == '}' then Some(Token(Literal('}'), 2))
    else if t[0] == '}' then None
    else if t[0] == '{' then
      var n := NameLength(t[1..]);
      if 1 + n == |t| || t[1 + n] == '{' then None
      else
        assert t[..n + 2] == "{" + t[1..][..n] + "}";
        Some(Token(Field(t[1..][..n]), n + 2))
    else Some(Token(Literal(t[0]), 1))
  }

  /** Puts `s` in front of a successful rendering; a failure stays as it is. */
  function Prepend(s: string, r: Result<string, FormatError>): Result<string, FormatError> {
    if r.Success? then Success(s + r.value) else r
  }

  /** `template.format(**args)`. It fails either on a misplaced brace or on a
      field name that is not among the arguments. */
  function Format(template: string, args: map<string, string>): (r: Result<string, FormatError>)
    ensures r.Failure? ==> r.error.Malformed? || r.error.name !in args
    decreases |template|
  {
    if template == [] then Success("")
    else match Scan(template)
      case None => Failure(Malformed)
      case Some(Token(Literal(c), w)) => Prepend([c], Format(template[w..], args))
      case Some(Token(Field(name), w)) =>
        if name in args then Prepend(args[name], Format(template[w..], args))
        else Failure(UnknownField(name))
  }

  /** Puts `p` in front of a successful parse; a failure stays as it is. */
  function Cons(p: Piece, r: Result<seq<Piece>, FormatError>): Result<seq<Piece>, FormatError> {
    if r.Success? then Success([p] + r.value) else r
  }

  /** The pieces a template consists of, or `Malformed` when a brace is out of place. */
  function Parse(template: string): Result<seq<Piece>, FormatError>
    decreases |template|
  {
    if template == [] then Success([])
    else match Scan(template)
      case None => Failure(Malformed)
      case Some(Token(p, w)) => Cons(p, Parse(template[w..]))
  }

  /** Pieces that some template parses to. */
  predicate WellFormed(ps: seq<Piece>) {
    forall i :: 0 <= i < |ps| ==> Readable(ps[i])
  }

  /** The template text of a sequence of pieces. */
  function Unparse(ps: seq<Piece>): string {
    if ps == [] then "" else PieceText(ps[0]) + Unparse(ps[1..])
  }

  /** Every field of `ps` names one of the arguments. */
  predicate FieldsBound(ps: seq<Piece>, args: map<string, string>) {
    forall i :: 0 <= i < |ps| && ps[i].Field? ==> ps[i].name in args
  }

  /** Fills in the pieces with the arguments, failing at the first unbound field. */
  function Substitute(ps: seq<Piece>, args: map<string, string>): (r: Result<string, FormatError>)
    ensures r.Success? <==> FieldsBound(ps, args)
    ensures r.Failure? ==>
      r.error.UnknownField? && exists i :: 0 <= i < |ps| && ps[i] == Field(r.error.name) && ps[i].name !in args
  {
    if ps == [] then Success("")
    else
      var rest := Substitute(ps[1..], args);
      assert forall i :: 1 <= i < |ps| ==> ps[i] == ps[1..][i - 1];
      match ps[0]
      case Literal(c) => Prepend([c], rest)
      case Field(name) => if name in args then Prepend(args[name], rest) else Failure(UnknownField(name))
  }

  /** A brace-free name followed by `}` is scanned up to that brace. */
  lemma {:induction false} NameLengthOfField(name: string, rest: string)
    requires BraceFree(name)
    ensures NameLength(name + "}" + rest) == |name|
    decreases |name|
  {
    var s := name + "}" + rest;
    if name != [] {
      assert s[0] == name[0];
      assert BraceFree(name[1..]) by {
        forall i | 0 <= i < |name[1..]| ensures !IsBrace(name[1..][i]) {
          assert name[1..][i] == name[i + 1];
        }
      }
      assert s[1..] == name[1..] + "}" + rest;
      NameLengthOfField(name[1..], rest);
    }
  }

  /** The name scan does not look past the brace it stops at. */
  lemma {:induction false} NameLengthAppend(s: string, b: string)
    requires NameLength(s) < |s|
    ensures NameLength(s + b) == NameLength(s)
    decreases |s|
  {
    assert (s + b)[0] == s[0];
    if !IsBrace(s[0]) {
      assert (s + b)[1..] == s[1..] + b;
      NameLengthAppend(s[1..], b);
    }
  }

  /** Scanning the text of a readable piece, whatever follows, reads that piece. */
  lemma ScanPieceText(p: Piece, rest: string)
    requires Readable(p)
    ensures Scan(PieceText(p) + rest) == Some(Token(p, |PieceText(p)|))
  {
    var t := PieceText(p) + rest;
    match p
    case Literal(c) =>
      assert t[0] == PieceText(p)[0];
      if IsBrace(c) {
        assert t[1] == PieceText(p)[1];
      }
    case Field(name) =>
      assert t[0] == '{';
      assert t[1..] == name + "}" + rest;
      NameLengthOfField(name, rest);
      assert t[1..][..|name|] == name;
  }

  /** What follows a piece does not change how the piece is scanned. */
  lemma ScanAppend(a: string, b: string)
    requires a != [] && Scan(a).Some?
    ensures Scan(a + b) == Scan(a)
  {
    var t := a + b;
    assert t[0] == a[0];
    if |a| > 1 {
      assert t[1] == a[1];
    }
    if a[0] == '{' && !(|a| > 1 && a[1] == '{') {
      assert t[1..] == a[1..] + b;
      NameLengthAppend(a[1..], b);
      var n := NameLength(a[1..]);
      assert t[1..][..n] == a[1..][..n];
    }
  }

  lemma UnparseCons(p: Piece, rest: seq<Piece>)
    ensures Unparse([p] + rest) == PieceText(p) + Unparse(rest)
    ensures WellFormed([p] + rest) <==> Readable(p) && WellFormed(rest)
  {
    var ps := [p] + rest;
    assert ps[1..] == rest;
    assert forall i :: 1 <= i < |ps| ==> ps[i] == rest[i - 1];
  }

  /** Parsing undoes writing out: every well-formed sequence of pieces is read
      back from its text. */
  lemma {:induction false} ParseUnparse(ps: seq<Piece>)
    requires WellFormed(ps)
    ensures Parse(Unparse(ps)) == Success(ps)
  {
    if ps != [] {
      var rest := ps[1..];
      assert ps == [ps[0]] + rest;
      UnparseCons(ps[0], rest);
      ParseUnparse(rest);
      ScanPieceText(ps[0], Unparse(rest));
      assert (PieceText(ps[0]) + Unparse(rest))[|PieceText(ps[0])|..] == Unparse(rest);
    }
  }

  /** Writing out undoes parsing: a template that parses is exactly the text
      of its pieces, and those pieces are well formed. */
  lemma {:induction false} UnparseParse(t: string)
    requires Parse(t).Success?
    ensures Unparse(Parse(t).value) == t
    ensures WellFormed(Parse(t).value)
    decreases |t|
  {
    if t != [] {
      var token := Scan(t).value;
      var tail := t[token.width..];
      UnparseParse(tail);
      var rest := Parse(tail).value;
      assert Parse(t).value == [token.piece] + rest;
      UnparseCons(token.piece, rest);
      assert t == t[..token.width] + tail;
    }
  }

  /** `Format` agrees with the structural view: it succeeds exactly on a
      template that parses and whose fields all name arguments, and then
      renders what substituting into the pieces renders. */
  lemma {:induction false} FormatIsSubstitution(t: string, args: map<string, string>)
    ensures Parse(t).Success? ==> Format(t, args) == Substitute(Parse(t).value, args)
    ensures Parse(t).Failure? ==> Format(t, args).Failure?
    decreases |t|
  {
    if t != [] && Scan(t).Some? {
      var token := Scan(t).value;
      FormatIsSubstitution(t[token.width..], args);
      if Parse(t).Success? {
        assert Parse(t).value[1..] == Parse(t[token.width..]).value;
      }
    }
  }

  /** A template without braces is its own rendering, whatever the arguments. */
  lemma {:induction false} FormatBraceFree(t: string, args: map<string, string>)
    requires BraceFree(t)
    ensures Format(t, args) == Success(t)
    decreases |t|
  {
    if t != [] {
      assert !IsBrace(t[0]);
      assert BraceFree(t[1..]) by {
        forall i | 0 <= i < |t[1..]| ensures !IsBrace(t[1..][i]) {
          assert t[1..][i] == t[i + 1];
        }
      }
      FormatBraceFree(t[1..], args);
      assert t == [t[0]] + t[1..];
    }
  }

  lemma PrependPrepend(s1: string, s2: string, r: Result<string, FormatError>)
    ensures Prepend(s1, Prepend(s2, r)) == Prepend(s1 + s2, r)
  {
    if r.Success? {
      assert s1 + (s2 + r.value) == (s1 + s2) + r.value;
    }
  }

  /** A template that renders can be followed by more template text: the
      rendering of the whole is the two renderings one after the other. */
  lemma {:induction false} FormatAppend(a: string, b: string, args: map<string, string>)
    requires Format(a, args).Success?
    ensures Format(a + b, args) == Prepend(Format(a, args).value, Format(b, args))
    decreases |a|
  {
    if a == [] {
      assert a + b == b;
      if Format(b, args).Success? {
        assert "" + Format(b, args).value == Format(b, args).value;
      }
    } else {
      var token := Scan(a).value;
      ScanAppend(a, b);
      assert (a + b)[token.width..] == a[token.width..] + b;
      FormatAppend(a[token.width..], b, args);
      var head := match token.piece case Literal(c) => [c] case Field(name) => args[name];
      PrependPrepend(head, Format(a[token.width..], args).value, Format(b, args));
    }
  }

  /** A lone field renders as its argument, or fails naming the field when
      there is no such argument. */
  lemma FormatField(name: string, args: map<string, string>)
    requires BraceFree(name)
    ensures Format("{" + name + "}", args)
         == if name in args then Success(args[name]) else Failure(UnknownField(name))
  {
    var t := "{" + name + "}";
    ScanPieceText(Field(name), "");
    assert t + "" == t;
    assert t[|t|..] == "";
    if name in args {
      assert args[name] + "" == args[name];
    }
  }
}
