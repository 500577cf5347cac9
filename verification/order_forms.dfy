/** The logic of the catering forms (ordersapp/forms.py): the guest-count
    validator of `EventForm` and the CSS-class merge that every form's
    `__init__` applies to the fields it has no declared widget for. */
module OrderForms {

  import opened Wrappers
  import opened Text

  datatype GuestCountError = NegativeGuestCount

  /** `clean_guest_count`: a missing count is 0, a negative one is rejected,
      anything else is kept. */
  function CleanGuestCount(v: Option<int>): (r: Result<nat, GuestCountError>)
    ensures v == None ==> r == Ok(0)
    ensures r.Err? <==> v.Some? && v.value < 0
    ensures v.Some? && v.value >= 0 ==> r == Ok(v.value)
  {
    var count := v.GetOr(0);
    if count < 0 then Err(NegativeGuestCount) else Ok(count)
  }

  /** A count the validator accepted is accepted again unchanged. */
  lemma CleanGuestCountIdempotent(v: Option<int>)
    requires CleanGuestCount(v).Ok?
    ensures CleanGuestCount(Some(CleanGuestCount(v).value)) == CleanGuestCount(v)
  {
  }

  const FormControl: string := "form-control"

  /** A class list whose last class is "form-control". */
  predicate EndsWithFormControl(c: string)
  {
    |c| >= |FormControl| && c[|c| - |FormControl|..] == FormControl
  }

  /** The widget attributes of one field, by name. */
  type Attrs = map<string, string>

  /** `attrs.get("class", "")`. */
  function ClassOf(attrs: Attrs): string
  {
    if "class" in attrs then attrs["class"] else ""
  }

  /** `LeadingSpaces` is the only count of leading whitespace. */
  lemma {:induction false} LeadingSpacesUnique(s: string, k: nat)
    requires k <= |s| && AllSpace(s[..k]) && (k < |s| ==> !IsSpace(s[k]))
    ensures LeadingSpaces(s) == k
  {
    if k > 0 {
      assert s[..k][0] == s[0];
      assert s[1..][..k - 1] == s[..k][1..];
      LeadingSpacesUnique(s[1..], k - 1);
    }
  }

  /** A string ending in a non-space character has no trailing whitespace. */
  lemma NoTrailingSpaces(t: string)
    requires t != [] && !IsSpace(t[|t| - 1])
    ensures TrailingSpaces(t) == 0
  {
  }

  /** A class to append: non-empty, and neither starting nor ending in whitespace. */
  predicate Solid(t: string)
  {
    t != [] && !IsSpace(t[0]) && !IsSpace(t[|t| - 1])
  }

  lemma FormControlSolid()
    ensures Solid(FormControl)
  {
  }

  /** Behind a blank class list the leading whitespace runs up to the appended class. */
  lemma LeadingOfAppendedBlank(existing: string, tail: string)
    requires AllSpace(existing) && Solid(tail)
    ensures LeadingSpaces(existing + " " + tail) == |existing| + 1
  {
    var s := existing + " " + tail;
    var n := |existing| + 1;
    assert s[..n] == existing + " ";
    assert AllSpace(existing + " ") by {
      forall i | 0 <= i < n
        ensures IsSpace((existing + " ")[i])
      {
        if i < |existing| {
          assert (existing + " ")[i] == existing[i];
        }
      }
    }
    assert s[n] == tail[0];
    LeadingSpacesUnique(s, n);
  }

  /** Behind a non-blank class list the leading whitespace is that of the list. */
  lemma LeadingOfAppendedText(existing: string, tail: string)
    requires !AllSpace(existing)
    ensures LeadingSpaces(existing + " " + tail) == LeadingSpaces(existing)
  {
    var s := existing + " " + tail;
    var a := LeadingSpaces(existing);
    assert a < |existing|;
    assert s[..a] == existing[..a];
    assert s[a] == existing[a];
    LeadingSpacesUnique(s, a);
  }

  /** The leading whitespace of a string ending in a non-space character
      stops before its end. */
  lemma {:induction false} LeadingSpacesBeforeLast(s: string)
    requires s != [] && !IsSpace(s[|s| - 1])
    ensures LeadingSpaces(s) < |s|
  {
    if IsSpace(s[0]) {
      LeadingSpacesBeforeLast(s[1..]);
    }
  }

  /** A string ending in a non-space character strips to what follows its
      leading whitespace. */
  lemma StripLeadingOnly(s: string)
    requires s != [] && !IsSpace(s[|s| - 1])
    ensures Strip(s) == s[LeadingSpaces(s)..]
  {
    LeadingSpacesBeforeLast(s);
    var t := s[LeadingSpaces(s)..];
    assert t[|t| - 1] == s[|s| - 1];
    NoTrailingSpaces(t);
    StripWithoutTrailing(s);
  }

  /** With no trailing whitespace behind the leading run, stripping only
      drops the leading run. */
  lemma StripWithoutTrailing(s: string)
    requires TrailingSpaces(s[LeadingSpaces(s)..]) == 0
    ensures Strip(s) == s[LeadingSpaces(s)..]
  {
    var a := LeadingSpaces(s);
    var t := s[a..];
    var k := TrailingSpaces(t);
    assert k == 0;
    assert t[..|t| - k] == t;
  }

  /** A blank class list strips to just the appended class. */
  lemma StripAppendedBlank(existing: string, tail: string)
    requires AllSpace(existing) && Solid(tail)
    ensures Strip(existing + " " + tail) == tail
  {
    var s := existing + " " + tail;
    LeadingOfAppendedBlank(existing, tail);
    assert s[LeadingSpaces(s)..] == tail;
    assert s[|s| - 1] == tail[|tail| - 1];
    StripLeadingOnly(s);
  }

  /** A non-blank class list loses only its leading whitespace. */
  lemma StripAppendedText(existing: string, tail: string)
    requires !AllSpace(existing) && Solid(tail)
    ensures Strip(existing + " " + tail) == existing[LeadingSpaces(existing)..] + " " + tail
  {
    var mid := " " + tail;
    var s := existing + mid;
    var a := LeadingSpaces(existing);
    assert existing + " " + tail == s;
    assert existing[a..] + " " + tail == existing[a..] + mid;
    LeadingOfAppendedText(existing, tail);
    SliceOfAppend(existing, mid, a);
    assert s[|s| - 1] == tail[|tail| - 1];
    StripLeadingOnly(s);
  }

  /** Dropping part of the front of a concatenation. */
  lemma SliceOfAppend(x: string, y: string, a: nat)
    requires a <= |x|
    ensures (x + y)[a..] == x[a..] + y
  {
  }

  /** `(existing + " form-control").strip()`: the class list with
      "form-control" appended, leading whitespace dropped. A blank class list
      becomes exactly "form-control"; otherwise the existing classes are kept
      as written, in front. */
  function MergeClass(existing: string): (r: string)
    ensures EndsWithFormControl(r)
    ensures AllSpace(existing) ==> r == FormControl
    ensures !AllSpace(existing) ==> r == existing[LeadingSpaces(existing)..] + " " + FormControl
  {
    FormControlSolid();
    if AllSpace(existing) then
      StripAppendedBlank(existing, FormControl);
      Strip(existing + " " + FormControl)
    else
      StripAppendedText(existing, FormControl);
      Strip(existing + " " + FormControl)
  }

  /** One field's attributes after the merge: the class list gets
      "form-control", every other attribute stays as it was. */
  function Styled(attrs: Attrs): (r: Attrs)
    ensures "class" in r && r["class"] == MergeClass(ClassOf(attrs))
    ensures forall k :: k != "class" ==> (k in r <==> k in attrs)
    ensures forall k :: k != "class" && k in attrs ==> r[k] == attrs[k]
  {
    attrs["class" := MergeClass(ClassOf(attrs))]
  }

  /** The loop of the form `__init__`s: every field whose name is not among
      the declared widgets is restyled; declared fields are left alone. */
  function StyleFields(fields: map<string, Attrs>, declared: set<string>): (r: map<string, Attrs>)
    ensures r.Keys == fields.Keys
    ensures forall n :: n in fields && n in declared ==> r[n] == fields[n]
    ensures forall n :: n in fields && n !in declared ==> r[n] == Styled(fields[n])
  {
    var r := map n | n in fields :: if n in declared then fields[n] else Styled(fields[n]);
    assert forall n :: n in fields && n in declared ==> r[n] == fields[n];
    r
  }

  /** `QuoteItemForm` declares no widgets, so every field is restyled;
      `MenuCategoryForm` restyles its single field the same way. */
  function StyleQuoteItemForm(fields: map<string, Attrs>): (r: map<string, Attrs>)
    ensures r.Keys == fields.Keys
    ensures forall n :: n in fields ==> r[n] == Styled(fields[n])
  {
    StyleFields(fields, {})
  }

  /** When each declared widget already carries the class "form-control", as
      every `Meta.widgets` entry in these forms does, then after the `__init__`
      loop every field's class list ends in "form-control". */
  lemma EveryFieldStyled(fields: map<string, Attrs>, declared: set<string>)
    requires forall n :: n in fields && n in declared ==> ClassOf(fields[n]) == FormControl
    ensures forall n :: n in StyleFields(fields, declared) ==> EndsWithFormControl(ClassOf(StyleFields(fields, declared)[n]))
  {
    var r := StyleFields(fields, declared);
    forall n | n in r
      ensures EndsWithFormControl(ClassOf(r[n]))
    {
      if n in declared {
        assert ClassOf(r[n]) == FormControl;
        assert FormControl[|FormControl| - |FormControl|..] == FormControl;
      } else {
        var m := MergeClass(ClassOf(fields[n]));
        assert ClassOf(r[n]) == m;
      }
    }
  }

  /** A field without a class ends up with exactly "form-control". */
  lemma UnstyledFieldGetsFormControl(fields: map<string, Attrs>, declared: set<string>, n: string)
    requires n in fields && n !in declared && "class" !in fields[n]
    ensures StyleFields(fields, declared)[n]["class"] == FormControl
  {
    assert AllSpace(ClassOf(fields[n]));
  }
}
