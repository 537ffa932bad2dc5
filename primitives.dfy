/**
 * The validating value objects of the domain model (`FirstName`, `LastName`,
 * `MiddleName`, `FolderTitle`, `FolderColor`, `NoteTitle`, `NoteColor`,
 * `TagTitle`) and their SQL column converters.
 *
 * Every class is a chain of guard checks followed by `re.match` against an
 * anchored pattern; the pattern is modelled as Python's regular-expression
 * engine reads it, including `$` matching just before a final newline.
 */
module Primitives {
  import opened Wrappers

  /** The value-object classes. */
  datatype Kind = FirstName | LastName | MiddleName | FolderTitle | FolderColor | NoteTitle | NoteColor | TagTitle

  /** A constructed value object: its class and the string it stores. */
  datatype ValueObject = ValueObject(kind: Kind, value: string)

  /** What the constructors and converters raise. */
  datatype PyError =
    | AttributeValidationError(message: string)
    | TypeError        // `len(None)` in a class without a `None` guard
    | AttributeError   // `None.value` in a converter without a `None` guard

  function ClassName(k: Kind): string
  {
    match k
    case FirstName => "FirstName"
    case LastName => "LastName"
    case MiddleName => "MiddleName"
    case FolderTitle => "FolderTitle"
    case FolderColor => "FolderColor"
    case NoteTitle => "NoteTitle"
    case NoteColor => "NoteColor"
    case TagTitle => "TagTitle"
  }

  predicate IsColor(k: Kind)
  {
    k == FolderColor || k == NoteColor
  }

  /** The titles guard against `None`; the others hand it to `len`. */
  predicate ChecksNone(k: Kind)
  {
    k == FolderTitle || k == NoteTitle || k == TagTitle
  }

  /** The colours have no emptiness guard: an empty colour is "too short". */
  predicate ChecksEmpty(k: Kind)
  {
    !IsColor(k)
  }

  function MinLength(k: Kind): nat
  {
    match k
    case FirstName | LastName | MiddleName => 2
    case FolderTitle | NoteTitle | TagTitle => 3
    case FolderColor | NoteColor => 4
  }

  function MaxLength(k: Kind): nat
  {
    match k
    case FirstName | LastName | MiddleName | TagTitle => 40
    case FolderTitle | NoteTitle => 60
    case FolderColor | NoteColor => 7
  }

  predicate IsAsciiAlnum(c: char)
  {
    'a' <= c <= 'z' || 'A' <= c <= 'Z' || '0' <= c <= '9'
  }

  /** The ranges `а-я` and `А-Я` (code points U+0430-U+044F and U+0410-U+042F; no `ё`/`Ё`). */
  predicate IsCyrillic(c: char)
  {
    'а' <= c <= 'я' || 'А' <= c <= 'Я'
  }

  predicate IsHexDigit(c: char)
  {
    'a' <= c <= 'f' || 'A' <= c <= 'F' || '0' <= c <= '9'
  }

  /**
   * The bracketed character class of a name or title pattern. In
   * `[a-zA-Z0-9а-яА-Я-_ ]` the `-` after the range `А-Я` is a literal.
   */
  predicate InClass(k: Kind, c: char)
  {
    match k
    case FirstName | LastName | MiddleName => IsAsciiAlnum(c) || IsCyrillic(c) || c == '-' || c == '_' || c == ' '
    case FolderTitle | NoteTitle => IsAsciiAlnum(c) || IsCyrillic(c) || c == '-' || c == '_' || c == '(' || c == ')' || c == ' '
    case TagTitle => IsAsciiAlnum(c) || IsCyrillic(c) || c == '_'
    case FolderColor | NoteColor => IsHexDigit(c)
  }

  predicate AllInClass(k: Kind, s: string)
  {
    forall i :: 0 <= i < |s| ==> InClass(k, s[i])
  }

  /** The newline is in no class, so the `$` quirk is the only way a string holding one can pass. */
  lemma NewlineInNoClass(k: Kind)
    ensures !InClass(k, '\n')
  {
  }

  /** `$` without `re.MULTILINE`: at the end of the string, or just before a final newline. */
  predicate EndAnchor(s: string, j: nat)
    requires j <= |s|
  {
    j == |s| || (j == |s| - 1 && s[j] == '\n')
  }

  /** Length of the longest prefix of `s` inside the class: how far the greedy repetition can run. */
  function ClassRun(k: Kind, s: string): (n: nat)
    ensures n <= |s| && AllInClass(k, s[..n])
    ensures n < |s| ==> !InClass(k, s[n])
  {
    if s == [] || !InClass(k, s[0]) then 0
    else
      var n := 1 + ClassRun(k, s[1..]);
      assert s[..n] == [s[0]] + s[1..][..n - 1];
      n
  }

  /**
   * `re.match("^C{lo,hi}$", s)` as the engine runs it: the repetition
   * greedily takes as many class characters as it may and `$` is tested
   * there (backing off cannot help, as a shorter count stops in front of a
   * class character, which is neither the end nor a final newline).
   */
  function MatchRepeat(k: Kind, s: string, lo: nat, hi: nat): (r: bool)
    ensures r ==> lo <= |s| <= hi + 1
    ensures r && |s| > hi ==> s[|s| - 1] == '\n'
  {
    var run := ClassRun(k, s);
    var j := if run < hi then run else hi;
    lo <= j && EndAnchor(s, j)
  }

  /** The meaning of the same pattern: some count between `lo` and `hi` of class characters, then `$`. */
  ghost predicate RepeatThenEnd(k: Kind, s: string, lo: nat, hi: nat)
  {
    exists j: nat :: lo <= j <= hi && j <= |s| && AllInClass(k, s[..j]) && EndAnchor(s, j)
  }

  /** The greedy matcher decides exactly the pattern's meaning. */
  lemma MatchRepeatCorrect(k: Kind, s: string, lo: nat, hi: nat)
    ensures MatchRepeat(k, s, lo, hi) <==> RepeatThenEnd(k, s, lo, hi)
  {
    var run := ClassRun(k, s);
    var j0 := if run < hi then run else hi;
    if MatchRepeat(k, s, lo, hi) {
      assert s[..j0] == s[..run][..j0];
      assert lo <= j0 <= hi && j0 <= |s| && AllInClass(k, s[..j0]) && EndAnchor(s, j0);
    }
    if RepeatThenEnd(k, s, lo, hi) {
      var j: nat :| lo <= j <= hi && j <= |s| && AllInClass(k, s[..j]) && EndAnchor(s, j);
      // the run reaches at least j, and a count short of the run stops in front of a class character
      assert j <= run;
      assert j == j0;
    }
  }

  /** `re.match("^#([a-fA-F0-9]{6}|[a-fA-F0-9]{3})$", s)`: the alternatives are tried in order. */
  function MatchColor(s: string): (r: bool)
    ensures r ==> (|s| == 4 || |s| == 5 || |s| == 7 || |s| == 8) && s[0] == '#'
    ensures r && (|s| == 5 || |s| == 8) ==> s[|s| - 1] == '\n'
  {
    |s| >= 1 && s[0] == '#' && (MatchRepeat(FolderColor, s[1..], 6, 6) || MatchRepeat(FolderColor, s[1..], 3, 3))
  }

  /**
   * The accepted strings, stated directly: the allowed length, and either
   * only class characters or class characters followed by one newline (the
   * body still long enough for the pattern's lower bound); for a colour, `#`
   * and three or six hexadecimal digits, or `#`, three digits and a newline.
   */
  ghost predicate Acceptable(k: Kind, s: string)
  {
    && MinLength(k) <= |s| <= MaxLength(k)
    && if IsColor(k) then
         s[0] == '#' && (((|s| == 4 || |s| == 7) && AllInClass(k, s[1..]))
                         || (|s| == 5 && AllInClass(k, s[1..4]) && s[4] == '\n'))
       else
         AllInClass(k, s) || (|s| > MinLength(k) && s[|s| - 1] == '\n' && AllInClass(k, s[..|s| - 1]))
  }

  /** The pattern test of the constructor, after the length guards have passed. */
  function PatternTest(k: Kind, s: string): (r: bool)
    ensures r ==> MinLength(k) <= |s| <= MaxLength(k) + 1
    ensures r && |s| > MaxLength(k) ==> s[|s| - 1] == '\n'
  {
    if IsColor(k) then MatchColor(s) else MatchRepeat(k, s, MinLength(k), MaxLength(k))
  }

  /** Within the allowed lengths, the pattern accepts exactly the strings `Acceptable` describes. */
  lemma PatternTestCorrect(k: Kind, s: string)
    requires MinLength(k) <= |s| <= MaxLength(k)
    ensures PatternTest(k, s) <==> Acceptable(k, s)
  {
    if IsColor(k) {
      var t := s[1..];
      MatchRepeatCorrect(FolderColor, t, 6, 6);
      MatchRepeatCorrect(FolderColor, t, 3, 3);
      assert InClass(k, '\n') == InClass(FolderColor, '\n');
      if Acceptable(k, s) {
        if |s| == 7 {
          assert t[..6] == t;
        } else if |s| == 4 {
          assert t[..3] == t;
        } else {
          assert t[..3] == s[1..4];
        }
      }
      if PatternTest(k, s) {
        if MatchRepeat(FolderColor, t, 6, 6) {
          var j: nat :| 6 <= j <= 6 && j <= |t| && AllInClass(FolderColor, t[..j]) && EndAnchor(t, j);
          assert t[..j] == t;
        } else {
          var j: nat :| 3 <= j <= 3 && j <= |t| && AllInClass(FolderColor, t[..j]) && EndAnchor(t, j);
          if j == |t| {
            assert t[..j] == t;
          } else {
            assert t[..j] == s[1..4];
          }
        }
      }
    } else {
      var lo, hi := MinLength(k), MaxLength(k);
      MatchRepeatCorrect(k, s, lo, hi);
      NewlineInNoClass(k);
      if Acceptable(k, s) {
        if AllInClass(k, s) {
          assert s[..|s|] == s;
        } else {
          assert lo <= |s| - 1 <= hi && EndAnchor(s, |s| - 1);
        }
      }
      if PatternTest(k, s) {
        var j: nat :| lo <= j <= hi && j <= |s| && AllInClass(k, s[..j]) && EndAnchor(s, j);
        if j == |s| {
          assert s[..j] == s;
        }
      }
    }
  }

  /**
   * The constructor: the `None` guard (titles only), the emptiness guard
   * (all but the colours), the two length guards, then the pattern; the
   * first failing check decides the error.
   */
  function New(k: Kind, input: Option<string>): (r: Result<ValueObject, PyError>)
    ensures r.Ok? <==> input.Some? && Acceptable(k, input.value)
    ensures r.Ok? ==> r.value == ValueObject(k, input.value)
    ensures input.None? ==> r.Err? && (r.error.TypeError? <==> !ChecksNone(k))
  {
    match input
    case None =>
      if ChecksNone(k) then Err(AttributeValidationError(ClassName(k) + " cannot be None")) else Err(TypeError)
    case Some(s) =>
      if ChecksEmpty(k) && |s| == 0 then Err(AttributeValidationError(ClassName(k) + " cannot be empty"))
      else if |s| < MinLength(k) then Err(AttributeValidationError(ClassName(k) + " is too short"))
      else if |s| > MaxLength(k) then Err(AttributeValidationError(ClassName(k) + " is too long"))
      else
        PatternTestCorrect(k, s);
        if !PatternTest(k, s) then Err(AttributeValidationError(ClassName(k) + " does not match expected pattern"))
        else Ok(ValueObject(k, s))
  }

  /** An object the constructor can produce. */
  ghost predicate Valid(o: ValueObject)
  {
    Acceptable(o.kind, o.value)
  }

  /** The error each guard raises, in guard order; a longer string never gets the "too short" error. */
  lemma CheckOrder(k: Kind, s: string)
    ensures ChecksEmpty(k) && s == [] ==> New(k, Some(s)) == Err(AttributeValidationError(ClassName(k) + " cannot be empty"))
    ensures !(ChecksEmpty(k) && s == []) && |s| < MinLength(k)
            ==> New(k, Some(s)) == Err(AttributeValidationError(ClassName(k) + " is too short"))
    ensures |s| > MaxLength(k) ==> New(k, Some(s)) == Err(AttributeValidationError(ClassName(k) + " is too long"))
    ensures MinLength(k) <= |s| <= MaxLength(k) && !Acceptable(k, s)
            ==> New(k, Some(s)) == Err(AttributeValidationError(ClassName(k) + " does not match expected pattern"))
  {
    if MinLength(k) <= |s| <= MaxLength(k) {
      PatternTestCorrect(k, s);
    }
  }

  /** A string with a single trailing newline gets through every name and title pattern: `"ab\n"` is a `FirstName`. */
  lemma TrailingNewlineAccepted()
    ensures New(FirstName, Some("ab\n")) == Ok(ValueObject(FirstName, "ab\n"))
    ensures New(FolderColor, Some("#abc\n")).Ok?
    ensures New(FirstName, Some("a\n")).Err?
  {
    assert AllInClass(FirstName, "ab\n"[..2]) by {
      assert "ab\n"[..2] == "ab";
    }
    assert AllInClass(FolderColor, "#abc\n"[1..4]) by {
      assert "#abc\n"[1..4] == "abc";
    }
  }

  /** `#abcd` passes both length guards and fails the pattern. */
  lemma ColorNeedsThreeOrSixDigits()
    ensures New(FolderColor, Some("#abcd")) == Err(AttributeValidationError("FolderColor does not match expected pattern"))
  {
    var s := "#abcd";
    assert |s| == 5 && s[4] == 'd';
    assert !Acceptable(FolderColor, s);
    CheckOrder(FolderColor, s);
    assert New(FolderColor, Some(s)) == Err(AttributeValidationError(ClassName(FolderColor) + " does not match expected pattern"));
    assert ClassName(FolderColor) + " does not match expected pattern" == "FolderColor does not match expected pattern";
  }

  /** A tag refuses a space and a hyphen, which a note title allows together with parentheses. */
  lemma TagClassIsNarrower()
    ensures New(TagTitle, Some("a b")).Err? && New(TagTitle, Some("a-b")).Err?
    ensures New(NoteTitle, Some("(a b)")).Ok? && New(NoteTitle, Some("a-b")).Ok?
  {
    assert !InClass(TagTitle, "a b"[1]) && !InClass(TagTitle, "a-b"[1]);
  }

  /** What `__eq__` may be handed: another value object, a raw string, or `None`. */
  datatype Operand = Obj(o: ValueObject) | Raw(s: string) | Null

  /** `__eq__`: the other object's value when it is exactly the same class, else `None`, compared with the stored string. */
  predicate Equal(a: ValueObject, b: Operand)
  {
    var other := if b.Obj? && b.o.kind == a.kind then Some(b.o.value) else None;
    other == Some(a.value)
  }

  /** Equality holds iff the other side is an object of the same class holding an equal string. */
  lemma EqualIffSameClassAndValue(a: ValueObject, b: Operand)
    ensures Equal(a, b) <==> b.Obj? && b.o.kind == a.kind && b.o.value == a.value
    ensures !Equal(a, Raw(a.value))
    ensures forall c: ValueObject :: c.kind != a.kind ==> !Equal(a, Obj(c))
  {
  }

  /** Value-object equality is an equivalence: reflexive, symmetric and transitive. */
  lemma EqualIsEquivalence(a: ValueObject, b: ValueObject, c: ValueObject)
    ensures Equal(a, Obj(a))
    ensures Equal(a, Obj(b)) ==> Equal(b, Obj(a))
    ensures Equal(a, Obj(b)) && Equal(b, Obj(c)) ==> Equal(a, Obj(c))
  {
  }

  /** The names and colours have converters that map `None` both ways. */
  predicate HasNullableColumn(k: Kind)
  {
    !ChecksNone(k)
  }

  /** `process_bind_param` of a name or colour: an object is truthy and gives its string; `None` gives `None`. */
  function BindNullable(v: Option<ValueObject>): (r: Option<string>)
    ensures r.Some? <==> v.Some?
    ensures r.Some? ==> r.value == v.value.value
  {
    match v
    case Some(o) => Some(o.value)
    case None => None
  }

  /** `process_result_value` of a name or colour: a non-empty string is validated; empty or `None` is `None`. */
  function ResultNullable(k: Kind, s: Option<string>): (r: Result<Option<ValueObject>, PyError>)
    ensures (s.None? || s.value == "") ==> r == Ok(None)
    ensures s.Some? && s.value != "" ==> (r.Ok? <==> Acceptable(k, s.value))
    ensures r.Ok? && r.value.Some? ==> r.value.value == ValueObject(k, s.value)
  {
    if s.Some? && s.value != "" then
      match New(k, s)
      case Ok(o) => Ok(Some(o))
      case Err(e) => Err(e)
    else Ok(None)
  }

  /** Storing a name or colour and reading it back gives it back, `None` included. */
  lemma NullableRoundTrip(k: Kind, v: Option<ValueObject>)
    requires HasNullableColumn(k)
    requires v.Some? ==> v.value.kind == k && Valid(v.value)
    ensures ResultNullable(k, BindNullable(v)) == Ok(v)
  {
  }

  /** Reading a stored name or colour and writing it back stores the same string. */
  lemma NullableColumnRoundTrip(k: Kind, s: Option<string>)
    requires s.Some? ==> Acceptable(k, s.value)
    ensures ResultNullable(k, s).Ok?
    ensures BindNullable(ResultNullable(k, s).value) == s
  {
  }

  /** `process_bind_param` of a title: reads `.value`, so `None` raises. */
  function BindTitle(v: Option<ValueObject>): (r: Result<string, PyError>)
    ensures r.Ok? <==> v.Some?
    ensures r.Ok? ==> r.value == v.value.value
    ensures r.Err? ==> r.error == AttributeError
  {
    match v
    case Some(o) => Ok(o.value)
    case None => Err(AttributeError)
  }

  /** `process_result_value` of a title: always constructs, so a `NULL` column raises "cannot be None". */
  function ResultTitle(k: Kind, s: Option<string>): (r: Result<ValueObject, PyError>)
    requires ChecksNone(k)
    ensures s.None? ==> r == Err(AttributeValidationError(ClassName(k) + " cannot be None"))
    ensures r.Ok? <==> s.Some? && Acceptable(k, s.value)
  {
    New(k, s)
  }

  /** Storing a title and reading it back gives it back. */
  lemma TitleRoundTrip(o: ValueObject)
    requires ChecksNone(o.kind) && Valid(o)
    ensures BindTitle(Some(o)).Ok?
    ensures ResultTitle(o.kind, Some(BindTitle(Some(o)).value)) == Ok(o)
  {
  }
}
