/**
 * Instance names. The engine names a copy of a prototype "<name>(Clone)";
 * the managers map an instance back to its prototype by removing every
 * "(Clone)" (`string.Replace`) and trimming white space (`string.Trim`).
 */
module Names {

  const Suffix: string := "(Clone)"

  /** The name `Instantiate` gives to a copy of a prototype called `name`. */
  function CloneName(name: string): string {
    name + Suffix
  }

  /** `s.Replace("(Clone)", "")`: occurrences are removed left to right, without overlap. */
  function StripClone(s: string): string {
    if |s| >= |Suffix| && s[..|Suffix|] == Suffix then StripClone(s[|Suffix|..])
    else if s == [] then []
    else [s[0]] + StripClone(s[1..])
  }

  /**
   * The characters `string.Trim` removes: the .NET white-space class, that is
   * U+0009 to U+000D, the space, U+0085, the no-break space, U+1680, U+2000 to
   * U+200A, the line and paragraph separators, U+202F, U+205F and U+3000.
   */
  predicate IsWhite(c: char) {
    || '\U{9}' <= c <= '\U{D}' || c == ' ' || c == '\U{85}' || c == '\U{A0}' || c == '\U{1680}'
    || '\U{2000}' <= c <= '\U{200A}' || c == '\U{2028}' || c == '\U{2029}' || c == '\U{202F}'
    || c == '\U{205F}' || c == '\U{3000}'
  }

  function TrimStart(s: string): string {
    if s != [] && IsWhite(s[0]) then TrimStart(s[1..]) else s
  }

  function TrimEnd(s: string): string {
    if s != [] && IsWhite(s[|s| - 1]) then TrimEnd(s[..|s| - 1]) else s
  }

  function Trim(s: string): string {
    TrimEnd(TrimStart(s))
  }

  /** `name.Replace("(Clone)", "").Trim()`. */
  function BaseName(name: string): string {
    Trim(StripClone(name))
  }

  /** "(Clone)" occurs in `s` starting at position `i`. */
  predicate OccursAt(s: string, i: nat) {
    i + |Suffix| <= |s| && s[i..i + |Suffix|] == Suffix
  }

  /** `s` contains no "(Clone)". */
  predicate NoSuffix(s: string) {
    forall i: nat :: i < |s| ==> !OccursAt(s, i)
  }

  /** A prototype name that survives the round trip: no "(Clone)" inside and no white space at either end. */
  predicate Clean(name: string) {
    NoSuffix(name) && (name != [] ==> !IsWhite(name[0]) && !IsWhite(name[|name| - 1]))
  }

  /** Removing "(Clone)" from a copy's name gives back the prototype's name, as no occurrence can straddle the join. */
  lemma {:induction false} StripCloneName(name: string)
    requires NoSuffix(name)
    ensures StripClone(CloneName(name)) == name
  {
    var s := CloneName(name);
    if name == [] {
      assert s[..|Suffix|] == Suffix;
      assert s[|Suffix|..] == [];
    } else {
      if |name| >= |Suffix| {
        assert s[..|Suffix|] == name[0..|Suffix|];
        assert !OccursAt(name, 0);
      } else {
        assert s[|name|] == '(';
        assert Suffix[|name|] != '(';
        assert s[..|Suffix|][|name|] != Suffix[|name|];
      }
      assert s[..|Suffix|] != Suffix;
      var rest := name[1..];
      forall i: nat ensures !OccursAt(rest, i) {
        assert !OccursAt(name, i + 1);
        if i + |Suffix| <= |rest| {
          assert rest[i..i + |Suffix|] == name[i + 1..i + 1 + |Suffix|];
        }
      }
      StripCloneName(rest);
      assert s[1..] == CloneName(rest);
    }
  }

  lemma TrimClean(name: string)
    requires Clean(name)
    ensures Trim(name) == name
  {
  }

  /** The instance-to-prototype name resolution recovers a clean prototype name from its copy's name. */
  lemma BaseNameOfClone(name: string)
    requires Clean(name)
    ensures BaseName(CloneName(name)) == name
  {
    StripCloneName(name);
    TrimClean(name);
  }
}
