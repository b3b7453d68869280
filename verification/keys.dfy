/**
 * Identifier Sanitizer: the CMake variable name derived from a file's path
 * relative to its project directory.
 */
module Keys {
  import opened Text
  import Paths

  /** The characters ToKey turns into underscores. */
  predicate IsReplaced(c: char)
  {
    c == Paths.Separator || c == ' ' || c == '.'
  }

  /** ToKey: separators, spaces and dots become '_', then the whole string is upper-cased. */
  function ToKey(s: string): string
  {
    Upper(Replace(Replace(Replace(s, Paths.Separator, '_'), ' ', '_'), '.', '_'))
  }

  /** Character by character: the three replaced characters give '_', every other one is only case-mapped. */
  lemma ToKeyAt(s: string, i: int)
    requires 0 <= i < |s|
    ensures |ToKey(s)| == |s|
    ensures ToKey(s)[i] == if IsReplaced(s[i]) then '_' else UpperChar(s[i])
  {
  }

  /** A key keeps the length of its path and contains no separator, space or dot. */
  lemma ToKeyClean(s: string)
    ensures |ToKey(s)| == |s|
    ensures forall i :: 0 <= i < |s| ==> !IsReplaced(ToKey(s)[i])
  {
    forall i | 0 <= i < |s|
      ensures !IsReplaced(ToKey(s)[i])
    {
      ToKeyAt(s, i);
      KeyCharStable(s[i]);
    }
  }

  /** Sanitising a key again changes nothing. */
  lemma ToKeyIdempotent(s: string)
    ensures ToKey(ToKey(s)) == ToKey(s)
  {
    var k := ToKey(s);
    assert |ToKey(k)| == |k| == |s|;
    forall i | 0 <= i < |s|
      ensures ToKey(k)[i] == k[i]
    {
      ToKeyAt(s, i);
      ToKeyAt(k, i);
      KeyCharStable(s[i]);
    }
  }

  /** A character of a key is neither replaced nor changed by case-mapping. */
  lemma KeyCharStable(c: char)
    ensures var d := if IsReplaced(c) then '_' else UpperChar(c); !IsReplaced(d) && UpperChar(d) == d
  {
  }

  /** The accepted collision: a dot and an underscore in the same place give the same key. */
  lemma ToKeyCollides()
    ensures ToKey("a.b") == ToKey("a_b") == "A_B"
  {
    ToKeyAt("a.b", 0);
    ToKeyAt("a.b", 1);
    ToKeyAt("a.b", 2);
    ToKeyAt("a_b", 0);
    ToKeyAt("a_b", 1);
    ToKeyAt("a_b", 2);
  }
}
