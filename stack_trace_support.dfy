/**
 * The stack-trace support setting: three constants, printed in lower case
 * and parsed without regard to case. Strings are sequences of ASCII
 * characters; letters outside a-z and A-Z are left as they are by the case
 * conversions.
 */
module StackTraceSupport {

  datatype StackTraceSupportType = Minimal | Full | None

  /** A Java reference that may be null. */
  datatype Nullable<T> = Null | NonNull(value: T)

  /** The constant's name as declared. */
  function Name(t: StackTraceSupportType): string
  {
    match t
    case Minimal => "MINIMAL"
    case Full => "FULL"
    case None => "NONE"
  }

  predicate IsUpper(c: char)
  {
    'A' <= c <= 'Z'
  }

  predicate IsLower(c: char)
  {
    'a' <= c <= 'z'
  }

  function UpperChar(c: char): (u: char)
    ensures IsLower(c) ==> IsUpper(u) && u as int == c as int - 32
    ensures !IsLower(c) ==> u == c
  {
    if IsLower(c) then (c as int - 32) as char else c
  }

  function LowerChar(c: char): (l: char)
    ensures IsUpper(c) ==> IsLower(l) && l as int == c as int + 32
    ensures !IsUpper(c) ==> l == c
  {
    if IsUpper(c) then (c as int + 32) as char else c
  }

  /** `String.toUpperCase` on ASCII text. */
  function ToUpper(s: string): (r: string)
    ensures |r| == |s|
    ensures forall i :: 0 <= i < |s| ==> r[i] == UpperChar(s[i])
  {
    if s == [] then [] else [UpperChar(s[0])] + ToUpper(s[1..])
  }

  /** `String.toLowerCase` on ASCII text. */
  function ToLower(s: string): (r: string)
    ensures |r| == |s|
    ensures forall i :: 0 <= i < |s| ==> r[i] == LowerChar(s[i])
  {
    if s == [] then [] else [LowerChar(s[0])] + ToLower(s[1..])
  }

  /** toString: the name in lower case. */
  function ToString(t: StackTraceSupportType): string
  {
    ToLower(Name(t))
  }

  /** `valueOf`: the constant with exactly that name; any other name throws, which is Null here. */
  function ValueOf(name: string): Nullable<StackTraceSupportType>
  {
    if name == "MINIMAL" then NonNull(Minimal)
    else if name == "FULL" then NonNull(Full)
    else if name == "NONE" then NonNull(None)
    else Null
  }

  /** fromString: valueOf of the upper-cased text; a null argument or an unknown name gives null. */
  function FromString(s: Nullable<string>): Nullable<StackTraceSupportType>
  {
    match s
    case Null => Null
    case NonNull(text) => ValueOf(ToUpper(text))
  }

  // ---------------------------------------------------------------------------
  // Properties

  /** toString gives "minimal", "full" and "none". */
  lemma ToStringValues()
    ensures ToString(Minimal) == "minimal"
    ensures ToString(Full) == "full"
    ensures ToString(None) == "none"
  {
    LowerOfUpperLetters(Name(Minimal), "minimal");
    LowerOfUpperLetters(Name(Full), "full");
    LowerOfUpperLetters(Name(None), "none");
  }

  lemma LowerOfUpperLetters(upper: string, lower: string)
    requires |upper| == |lower|
    requires forall i :: 0 <= i < |upper| ==> IsUpper(upper[i]) && lower[i] as int == upper[i] as int + 32
    ensures ToLower(upper) == lower
  {
  }

  /** Every name is made of upper-case letters, so printing and parsing undo each other. */
  lemma NameIsUpperCase(t: StackTraceSupportType)
    ensures forall i :: 0 <= i < |Name(t)| ==> IsUpper(Name(t)[i])
  {
  }

  /** Upper-casing the lower-case of an upper-case text gives the text back. */
  lemma UpperOfLower(s: string)
    requires forall i :: 0 <= i < |s| ==> IsUpper(s[i])
    ensures ToUpper(ToLower(s)) == s
  {
    assert forall i :: 0 <= i < |s| ==> ToUpper(ToLower(s))[i] == UpperChar(LowerChar(s[i])) == s[i];
  }

  /** fromString(toString(x)) == x for every constant. */
  lemma RoundTrip(t: StackTraceSupportType)
    ensures FromString(NonNull(ToString(t))) == NonNull(t)
  {
    NameIsUpperCase(t);
    UpperOfLower(Name(t));
  }

  /** Texts that differ only in the case of their letters parse alike. */
  lemma CaseInsensitive(s1: string, s2: string)
    requires |s1| == |s2|
    requires forall i :: 0 <= i < |s1| ==> UpperChar(s1[i]) == UpperChar(s2[i])
    ensures FromString(NonNull(s1)) == FromString(NonNull(s2))
  {
    assert ToUpper(s1) == ToUpper(s2);
  }

  /** The result depends on the upper-cased text alone: parsing it again changes nothing. */
  lemma ParsesUpperCased(s: string)
    ensures FromString(NonNull(s)) == FromString(NonNull(ToUpper(s)))
  {
    assert ToUpper(ToUpper(s)) == ToUpper(s);
  }

  /** fromString gives a constant exactly when the upper-cased text is that constant's name. */
  lemma FromStringValue(s: string, t: StackTraceSupportType)
    ensures FromString(NonNull(s)) == NonNull(t) <==> ToUpper(s) == Name(t)
  {
  }

  /** fromString gives null for null and for every text whose upper-cased form names no constant. */
  lemma FromStringNull(s: Nullable<string>)
    ensures FromString(s) == Null <==> s == Null || ToUpper(s.value) !in {"MINIMAL", "FULL", "NONE"}
  {
  }

  /** No two constants print alike. */
  lemma ToStringInjective(a: StackTraceSupportType, b: StackTraceSupportType)
    ensures ToString(a) == ToString(b) ==> a == b
  {
    if ToString(a) == ToString(b) {
      RoundTrip(a);
      RoundTrip(b);
    }
  }

  /** A mixed-case name parses; a near miss and the empty text do not. */
  lemma FromStringExamples()
    ensures FromString(NonNull("Full")) == NonNull(Full)
    ensures FromString(NonNull("minimal")) == NonNull(Minimal)
    ensures FromString(NonNull("fulll")) == Null
    ensures FromString(NonNull("")) == Null
  {
    assert ToUpper("Full") == "FULL";
    assert ToUpper("minimal") == "MINIMAL";
    assert |ToUpper("fulll")| == 5;
  }
}
