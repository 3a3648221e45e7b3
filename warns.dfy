/**
 * Validation warnings: a warning is global when it names no field (or a blank one), and a
 * `Warns` value is the ordered list of warnings one validation accumulated.
 */
module Warnings {
  import opened Wrappers
  import Keys

  /** `Character.isWhitespace`: the Unicode space, line and paragraph separators except the
      non-breaking ones, and the control characters TAB, LF, VT, FF, CR and FS to US. */
  predicate IsWhitespace(c: char) {
    var u := c as int;
    || (0x09 <= u <= 0x0D) || (0x1C <= u <= 0x1F)
    || u == 0x20 || u == 0x1680
    || (0x2000 <= u <= 0x200A && u != 0x2007)
    || u == 0x2028 || u == 0x2029 || u == 0x205F || u == 0x3000
  }

  /** `StringUtils.hasText`: present, non-empty and holding a non-whitespace character. */
  predicate HasText(s: Option<string>) {
    s.Some? && exists i :: 0 <= i < |s.value| && !IsWhitespace(s.value[i])
  }

  datatype Warn = Warn(field: Option<string>, message: string, messageArgs: seq<string>) {

    /** A warning is global when its field is absent, empty or only whitespace. */
    predicate IsGlobal()
      ensures IsGlobal() <==>
        field.None? || forall i :: 0 <= i < |field.value| ==> IsWhitespace(field.value[i])
    {
      !HasText(field)
    }
  }

  function OfGlobal(message: string, messageArgs: seq<string>): (w: Warn)
    ensures w.IsGlobal() && w.message == message && w.messageArgs == messageArgs
  {
    Warn(None, message, messageArgs)
  }

  /** A warning for `field`; it is nevertheless global when `field` is blank. */
  function OfField(field: string, message: string, messageArgs: seq<string>): (w: Warn)
    ensures w.field == Some(field) && w.message == message && w.messageArgs == messageArgs
    ensures w.IsGlobal() <==> !HasText(Some(field))
  {
    Warn(Some(field), message, messageArgs)
  }

  /** The position of the first element of `s` satisfying `p`. */
  function FirstIndex<T>(s: seq<T>, p: T -> bool): (r: Option<nat>)
    ensures r.Some? ==> r.value < |s| && p(s[r.value])
    ensures r.Some? ==> forall j :: 0 <= j < r.value ==> !p(s[j])
    ensures r.None? ==> forall j :: 0 <= j < |s| ==> !p(s[j])
  {
    if s == [] then None
    else if p(s[0]) then Some(0)
    else match FirstIndex(s[1..], p)
      case None => None
      case Some(k) => Some(k + 1)
  }

  /** The elements of `s` satisfying `p`, in their order in `s`. */
  function Filter<T>(s: seq<T>, p: T -> bool): (r: seq<T>)
    ensures |r| <= |s|
    ensures forall i :: 0 <= i < |r| ==> p(r[i]) && r[i] in s
    ensures forall i :: 0 <= i < |s| && p(s[i]) ==> s[i] in r
  {
    if s == [] then [] else (if p(s[0]) then [s[0]] else []) + Filter(s[1..], p)
  }

  /** Filtering distributes over concatenation, so the filtered list keeps the original order. */
  lemma {:induction false} FilterAppend<T>(a: seq<T>, b: seq<T>, p: T -> bool)
    ensures Filter(a + b, p) == Filter(a, p) + Filter(b, p)
  {
    if a != [] {
      assert (a + b)[1..] == a[1..] + b;
      FilterAppend(a[1..], b, p);
    } else {
      assert a + b == b;
    }
  }

  datatype Warns = Warns(errors: seq<Warn>) {

    /** The first global warning, if any. */
    function GlobalErrorOpt(): (r: Option<Warn>)
      ensures r.Some? ==> r.value.IsGlobal() && r.value in errors
      ensures r.Some? ==> exists i :: (0 <= i < |errors| && errors[i] == r.value &&
                                       forall j :: 0 <= j < i ==> !errors[j].IsGlobal())
      ensures r.None? <==> forall i :: 0 <= i < |errors| ==> !errors[i].IsGlobal()
    {
      match FirstIndex(errors, (w: Warn) => w.IsGlobal())
      case None => None
      case Some(i) => Some(errors[i])
    }

    /** The first global warning, or the generic "error.Exception" warning when there is none. */
    function GlobalError(): (w: Warn)
      ensures GlobalErrorOpt().Some? ==> w == GlobalErrorOpt().value
      ensures GlobalErrorOpt().None? ==> w == OfGlobal(Keys.Exception, [])
      ensures w.IsGlobal()
    {
      match GlobalErrorOpt()
      case Some(g) => g
      case None => OfGlobal(Keys.Exception, [])
    }

    /** The field warnings, in their original order. */
    function FieldErrors(): (r: seq<Warn>)
      ensures forall i :: 0 <= i < |r| ==> !r[i].IsGlobal() && r[i] in errors
      ensures forall i :: 0 <= i < |errors| && !errors[i].IsGlobal() ==> errors[i] in r
    {
      Filter(errors, (w: Warn) => !w.IsGlobal())
    }

    /** The first field warning for `field`. */
    function FieldError(field: string): (r: Option<Warn>)
      ensures r.Some? ==> !r.value.IsGlobal() && r.value.field == Some(field) && r.value in errors
      ensures r.Some? ==> exists i :: (0 <= i < |errors| && errors[i] == r.value &&
        forall j :: 0 <= j < i ==> errors[j].IsGlobal() || errors[j].field != Some(field))
      ensures r.None? <==>
        forall i :: 0 <= i < |errors| ==> errors[i].IsGlobal() || errors[i].field != Some(field)
    {
      match FirstIndex(errors, (w: Warn) => !w.IsGlobal() && w.field == Some(field))
      case None => None
      case Some(i) => Some(errors[i])
    }

    predicate HasError()
      ensures HasError() <==> errors != []
    {
      |errors| != 0
    }

    predicate HasFieldError()
      ensures HasFieldError() <==> exists i :: 0 <= i < |errors| && !errors[i].IsGlobal()
    {
      var r := FieldErrors();
      assert r != [] ==> r[0] in errors;
      |r| != 0
    }
  }

  /** A bean-validation constraint violation: the property path it names and its message. */
  datatype ConstraintViolation = ConstraintViolation(propertyPath: string, message: string)

  function ConstraintWarn(v: ConstraintViolation): (w: Warn)
    ensures w == OfField(v.propertyPath, v.message, [])
  {
    OfField(v.propertyPath, v.message, [])
  }

  /** One field warning per violation, in iteration order. */
  function ConstraintWarns(vs: seq<ConstraintViolation>): (ws: seq<Warn>)
    ensures |ws| == |vs|
    ensures forall i :: 0 <= i < |vs| ==> ws[i] == OfField(vs[i].propertyPath, vs[i].message, [])
  {
    seq(|vs|, i requires 0 <= i < |vs| => ConstraintWarn(vs[i]))
  }

  /** The mutable list that validation appends warnings to. */
  class WarnsBuilder {
    var warns: seq<Warn>

    constructor ()
      ensures warns == []
    {
      warns := [];
    }

    method Add(message: string, messageArgs: seq<string>)
      modifies this
      ensures warns == old(warns) + [OfGlobal(message, messageArgs)]
    {
      warns := warns + [OfGlobal(message, messageArgs)];
    }

    method AddWarn(warn: Warn)
      modifies this
      ensures warns == old(warns) + [warn]
    {
      warns := warns + [warn];
    }

    method AddField(field: string, message: string, messageArgs: seq<string>)
      modifies this
      ensures warns == old(warns) + [OfField(field, message, messageArgs)]
    {
      warns := warns + [OfField(field, message, messageArgs)];
    }

    method AddConstraint(error: ConstraintViolation)
      modifies this
      ensures warns == old(warns) + [ConstraintWarn(error)]
    {
      AddField(error.propertyPath, error.message, []);
    }

    method AddAll(errors: seq<Warn>)
      modifies this
      ensures warns == old(warns) + errors
    {
      warns := warns + errors;
    }

    method AddAllWarns(ws: Warns)
      modifies this
      ensures warns == old(warns) + ws.errors
    {
      AddAll(ws.errors);
    }

    method AddAllConstraint(errors: seq<ConstraintViolation>)
      modifies this
      ensures warns == old(warns) + ConstraintWarns(errors)
    {
      var i := 0;
      while i < |errors|
        invariant 0 <= i <= |errors|
        invariant warns == old(warns) + ConstraintWarns(errors[..i])
      {
        AddConstraint(errors[i]);
        assert ConstraintWarns(errors[..i + 1]) == ConstraintWarns(errors[..i]) + [ConstraintWarn(errors[i])];
        i := i + 1;
      }
      assert errors[..i] == errors;
    }

    /** An immutable copy of the warnings so far. */
    function Build(): (w: Warns)
      reads this
      ensures w.errors == warns
    {
      Warns(warns)
    }
  }

  /** A built `Warns` is a snapshot: appending to the builder afterwards leaves it unchanged. */
  method BuildIsSnapshot(b: WarnsBuilder, message: string) returns (built: Warns)
    modifies b
    ensures built.errors == old(b.warns)
    ensures b.warns == built.errors + [OfGlobal(message, [])]
  {
    built := b.Build();
    b.Add(message, []);
  }
}
