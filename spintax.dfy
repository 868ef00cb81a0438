/**
 * Spintax expansion (`parseSpintax`): one left-to-right pass of the global
 * regular expression `\{([^{}]+)\}`. Every brace group that holds at least
 * one character and no other brace is replaced by one of its `|`-separated
 * alternatives; everything else is copied. The random pick is an explicit
 * chooser: the k-th group takes `choices[k] % alternatives`, or the first
 * alternative once the choices run out.
 */
module Spintax {
  import opened Wrappers
  import opened Text

  predicate IsBrace(c: char) { c == '{' || c == '}' }

  /** The first index at or after `j` that holds a brace, or |s|. */
  function NextBrace(s: string, j: nat): (k: nat)
    requires j <= |s|
    ensures j <= k <= |s|
    ensures forall m :: j <= m < k ==> !IsBrace(s[m])
    ensures k < |s| ==> IsBrace(s[k])
    decreases |s| - j
  {
    if j == |s| || IsBrace(s[j]) then j else NextBrace(s, j + 1)
  }

  /** Where the group opened at `i` closes, when `\{[^{}]+\}` matches at `i`. */
  function GroupEnd(s: string, i: nat): (e: Option<nat>)
    requires i <= |s|
    ensures e.Some? ==> i + 2 <= e.value < |s| && s[i] == '{' && s[e.value] == '}'
    ensures e.Some? ==> forall m :: i < m < e.value ==> !IsBrace(s[m])
  {
    if i < |s| && s[i] == '{' then
      var k := NextBrace(s, i + 1);
      if k < |s| && s[k] == '}' && k > i + 1 then Some(k) else None
    else None
  }

  /** The pattern matches at `i` exactly when a brace-free, non-empty run closes. */
  lemma GroupEndWhen(s: string, i: nat, e: nat)
    requires i + 2 <= e < |s| && s[i] == '{' && s[e] == '}'
    requires forall m :: i < m < e ==> !IsBrace(s[m])
    ensures GroupEnd(s, i) == Some(e)
  {
  }

  /** `parts[Math.floor(Math.random() * parts.length)]`, with the draw given. */
  function Choose(parts: seq<string>, choices: seq<nat>): (r: string)
    requires |parts| >= 1
    ensures r in parts
  {
    parts[(if choices == [] then 0 else choices[0]) % |parts|]
  }

  function Remaining(choices: seq<nat>): seq<nat>
  {
    if choices == [] then [] else choices[1..]
  }

  /** The expansion of `s[i..]`, the regular expression's scan resumed at `i`. */
  function ExpandFrom(s: string, i: nat, choices: seq<nat>): (r: string)
    requires i <= |s|
    ensures |r| <= |s| - i
    decreases |s| - i
  {
    if i == |s| then []
    else match GroupEnd(s, i)
      case Some(e) =>
        Choose(Split(s[i + 1..e], '|'), choices) + ExpandFrom(s, e + 1, Remaining(choices))
      case None => [s[i]] + ExpandFrom(s, i + 1, choices)
  }

  /** The expanded text is never longer than the template: each group shrinks to one alternative. */
  function Expand(text: string, choices: seq<nat>): (r: string)
    ensures |r| <= |text|
  {
    ExpandFrom(text, 0, choices)
  }

  /** One step of the scan at a position where no group starts. */
  lemma ExpandFromLiteral(s: string, i: nat, choices: seq<nat>)
    requires i < |s| && GroupEnd(s, i).None?
    ensures ExpandFrom(s, i, choices) == [s[i]] + ExpandFrom(s, i + 1, choices)
  {
  }

  /** One step of the scan at a position where a group starts. */
  lemma ExpandFromGroup(s: string, i: nat, e: nat, choices: seq<nat>)
    requires i < |s| && GroupEnd(s, i) == Some(e)
    ensures ExpandFrom(s, i, choices)
         == Choose(Split(s[i + 1..e], '|'), choices) + ExpandFrom(s, e + 1, Remaining(choices))
  {
  }

  /** `parseSpintax(text)`, where a missing text reads as "". */
  function ExpandOptional(text: Option<string>, choices: seq<nat>): (r: string)
    ensures text.None? ==> r == []
  {
    match text
    case None => []
    case Some(t) => Expand(t, choices)
  }

  predicate HasGroup(s: string)
  {
    exists i :: 0 <= i <= |s| && GroupEnd(s, i).Some?
  }

  /** Text that holds no group is copied unchanged, whatever the choices. */
  lemma {:induction false} ExpandFromNoGroup(s: string, i: nat, choices: seq<nat>)
    requires i <= |s|
    requires forall k :: i <= k <= |s| ==> GroupEnd(s, k).None?
    ensures ExpandFrom(s, i, choices) == s[i..]
    decreases |s| - i
  {
    if i < |s| {
      ExpandFromNoGroup(s, i + 1, choices);
      assert [s[i]] + s[i + 1..] == s[i..];
    }
  }

  lemma ExpandNoGroup(s: string, choices: seq<nat>)
    requires !HasGroup(s)
    ensures Expand(s, choices) == s
  {
    ExpandFromNoGroup(s, 0, choices);
  }

  lemma ExpandEmpty(choices: seq<nat>)
    ensures Expand("", choices) == ""
  {
  }

  /** Text without an opening brace is copied unchanged. */
  lemma ExpandNoOpeningBrace(s: string, choices: seq<nat>)
    requires '{' !in s
    ensures Expand(s, choices) == s
  {
    forall k | 0 <= k <= |s|
      ensures GroupEnd(s, k).None?
    {
      if k < |s| { assert s[k] != '{'; }
    }
    ExpandFromNoGroup(s, 0, choices);
  }

  /** A lone group `{g}` becomes one of the alternatives of `g`. */
  lemma ExpandSingleGroup(g: string, choices: seq<nat>)
    requires |g| >= 1
    requires forall m :: 0 <= m < |g| ==> !IsBrace(g[m])
    ensures Expand("{" + g + "}", choices) == Choose(Split(g, '|'), choices)
    ensures Expand("{" + g + "}", choices) in Split(g, '|')
  {
    var s := "{" + g + "}";
    var e := |g| + 1;
    assert forall m :: 0 < m < e ==> s[m] == g[m - 1];
    GroupEndWhen(s, 0, e);
    assert s[1..e] == g;
    assert ExpandFrom(s, e + 1, Remaining(choices)) == [];
    assert Expand(s, choices) == Choose(Split(g, '|'), choices) + ExpandFrom(s, e + 1, Remaining(choices));
  }

  lemma ExpandTwoAlternatives(choices: seq<nat>)
    ensures Expand("{a|b}", choices) == "a" || Expand("{a|b}", choices) == "b"
  {
    var g := "a|b";
    assert "{a|b}" == "{" + g + "}";
    ExpandSingleGroup(g, choices);
    assert g == "a" + ['|'] + "b";
    SplitAtFirst("a", "b", '|');
    SplitNoSeparator("b", '|');
  }

  /** An empty group does not match the pattern and stays literal. */
  lemma ExpandEmptyBraces(choices: seq<nat>)
    ensures Expand("{}", choices) == "{}"
  {
    var s := "{}";
    assert GroupEnd(s, 0).None? by {
      assert NextBrace(s, 1) == 1;
    }
    assert GroupEnd(s, 1).None?;
  }

  /**
   * The pass is single: in `{{g}}` the inner group is replaced and the outer
   * braces stay literal, so the result is again a brace group.
   */
  lemma ExpandOuterBraces(g: string, choices: seq<nat>)
    requires |g| >= 1
    requires forall m :: 0 <= m < |g| ==> !IsBrace(g[m])
    ensures Expand("{{" + g + "}}", choices) == "{" + Choose(Split(g, '|'), choices) + "}"
  {
    var s := "{{" + g + "}}";
    var e := |g| + 2;
    assert s[0] == '{' && s[1] == '{' && s[e] == '}' && s[e + 1] == '}';
    assert s[2..e] == g;
    forall m | 1 < m < e ensures !IsBrace(s[m]) {
      assert s[m] == g[m - 2];
    }
    ExpandNestedAt(s, choices);
  }

  lemma ExpandNestedAt(s: string, choices: seq<nat>)
    requires |s| >= 5 && s[0] == '{' && s[1] == '{' && s[|s| - 2] == '}' && s[|s| - 1] == '}'
    requires forall m :: 1 < m < |s| - 2 ==> !IsBrace(s[m])
    ensures Expand(s, choices) == "{" + Choose(Split(s[2..|s| - 2], '|'), choices) + "}"
  {
    var e := |s| - 2;
    var rest := Remaining(choices);
    GroupEndWhen(s, 1, e);
    assert GroupEnd(s, 0).None? by {
      assert NextBrace(s, 1) == 1;
    }
    assert GroupEnd(s, e + 1).None?;
    ExpandFromLiteral(s, e + 1, rest);
    ExpandFromGroup(s, 1, e, choices);
    ExpandFromLiteral(s, 0, choices);
  }
}
