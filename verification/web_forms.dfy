/**
 * The admin forms for adding a channel and adding a username: each trims its
 * name in place and validates it, recording the validation errors on itself.
 */
module WebForms {

  /** Unicode white space as Go's `unicode.IsSpace` defines it. */
  predicate IsSpace(c: char) {
    || c == '\t' || c == '\n' || c == '\U{000B}' || c == '\U{000C}' || c == '\r' || c == ' '
    || c == '\U{0085}' || c == '\U{00A0}' || c == '\U{1680}'
    || ('\U{2000}' <= c <= '\U{200A}')
    || c == '\U{2028}' || c == '\U{2029}' || c == '\U{202F}' || c == '\U{205F}' || c == '\U{3000}'
  }

  /** `s` without its leading white space. */
  function TrimLeft(s: string): (r: string)
    ensures |r| <= |s| && r == s[|s| - |r|..]
    ensures forall k :: 0 <= k < |s| - |r| ==> IsSpace(s[k])
    ensures r == [] || !IsSpace(r[0])
  {
    if s != [] && IsSpace(s[0]) then TrimLeft(s[1..]) else s
  }

  /** `s` without its trailing white space. */
  function TrimRight(s: string): (r: string)
    ensures |r| <= |s| && r == s[..|r|]
    ensures forall k :: |r| <= k < |s| ==> IsSpace(s[k])
    ensures r == [] || !IsSpace(r[|r| - 1])
  {
    if s != [] && IsSpace(s[|s| - 1]) then TrimRight(s[..|s| - 1]) else s
  }

  /** Go's `strings.TrimSpace`: `s` without its leading and trailing white space. */
  function TrimSpace(s: string): (r: string)
    ensures |r| <= |s|
    ensures r == [] || (!IsSpace(r[0]) && !IsSpace(r[|r| - 1]))
  {
    TrimRight(TrimLeft(s))
  }

  /** The trimmed name is the slice of `s` that starts after the leading white space. */
  lemma TrimSpaceIsSlice(s: string)
    ensures var r, i := TrimSpace(s), |s| - |TrimLeft(s)|;
      i + |r| <= |s| && r == s[i..i + |r|]
  {
    var left := TrimLeft(s);
    var i := |s| - |left|;
    var r := TrimRight(left);
    assert left == s[i..];
    assert r == left[..|r|];
  }

  /** Everything trimmed away, on either side, is white space. */
  lemma TrimSpaceRemovesOnlySpace(s: string)
    ensures var r, i := TrimSpace(s), |s| - |TrimLeft(s)|;
      && (forall k :: 0 <= k < i ==> IsSpace(s[k]))
      && (forall k :: i + |r| <= k < |s| ==> IsSpace(s[k]))
  {
    var left := TrimLeft(s);
    var i := |s| - |left|;
    var r := TrimRight(left);
    assert left == s[i..];
    forall k | i + |r| <= k < |s|
      ensures IsSpace(s[k])
    {
      assert s[k] == left[k - i];
    }
  }

  /** Trimming a name that already has no surrounding white space changes nothing. */
  lemma TrimmedIsFixed(s: string)
    requires s == [] || (!IsSpace(s[0]) && !IsSpace(s[|s| - 1]))
    ensures TrimSpace(s) == s
  {
  }

  /** Trimming twice is trimming once. */
  lemma TrimIdempotent(s: string)
    ensures TrimSpace(TrimSpace(s)) == TrimSpace(s)
  {
    TrimmedIsFixed(TrimSpace(s));
  }

  /** A name made only of white space trims to the empty name. */
  lemma {:induction false} BlankTrimsToEmpty(s: string)
    requires forall k :: 0 <= k < |s| ==> IsSpace(s[k])
    ensures TrimSpace(s) == ""
  {
  }

  const NameRequired := "Name is required"

  /** The validation errors for a name: exactly one error for the empty name, none otherwise. */
  function ValidationErrors(name: string): (errs: seq<string>)
    ensures |errs| == 0 <==> name != ""
    ensures name == "" ==> errs == [NameRequired]
  {
    if name == "" then [NameRequired] else []
  }

  /** A name made only of white space fails validation once trimmed. */
  lemma BlankNameRejected(s: string)
    requires forall k :: 0 <= k < |s| ==> IsSpace(s[k])
    ensures ValidationErrors(TrimSpace(s)) == [NameRequired]
  {
    BlankTrimsToEmpty(s);
  }

  /** The add-channel form. */
  class AddChannel {
    var errors: seq<string>
    var name: string

    constructor (name: string)
      ensures this.name == name && errors == []
    {
      this.name := name;
      errors := [];
    }

    /** Replaces the name by its trimmed form. */
    method Trim()
      modifies this
      ensures name == TrimSpace(old(name)) && errors == old(errors)
    {
      name := TrimSpace(name);
    }

    /** Records the name's validation errors and reports whether there are none; the name is not changed. */
    method Validate() returns (ok: bool)
      modifies this
      ensures errors == ValidationErrors(name) && name == old(name)
      ensures ok <==> |errors| == 0
      ensures ok <==> name != ""
    {
      var errs: seq<string> := [];
      if name == "" {
        errs := errs + [NameRequired];
      }
      errors := errs;
      return |errs| == 0;
    }
  }

  /** The add-username form: the same fields and rules as the add-channel form. */
  class AddUsername {
    var errors: seq<string>
    var name: string

    constructor (name: string)
      ensures this.name == name && errors == []
    {
      this.name := name;
      errors := [];
    }

    /** Replaces the name by its trimmed form. */
    method Trim()
      modifies this
      ensures name == TrimSpace(old(name)) && errors == old(errors)
    {
      name := TrimSpace(name);
    }

    /** Records the name's validation errors and reports whether there are none; the name is not changed. */
    method Validate() returns (ok: bool)
      modifies this
      ensures errors == ValidationErrors(name) && name == old(name)
      ensures ok <==> |errors| == 0
      ensures ok <==> name != ""
    {
      var errs: seq<string> := [];
      if name == "" {
        errs := errs + [NameRequired];
      }
      errors := errs;
      return |errs| == 0;
    }
  }
}
