/**
 * The alias table of the custom entities of the site: a case-insensitive lookup
 * from a human-readable alias to the name of the custom entity type behind it.
 */
module ShotgunGlobals {
  import opened Wrappers

  /**
   * The lower-case mapping of one character, as Python's `str.lower` applies it
   * where the result can matter for the table: ASCII `A`-`Z` map to `a`-`z`, and
   * KELVIN SIGN (U+212A) maps to `k`. Every other character is kept.
   */
  function LowerChar(c: char): (r: char)
    ensures !('A' <= r <= 'Z')
  {
    if 'A' <= c <= 'Z' then (c as int + 32) as char
    else if c == '\U{212A}' then 'k'
    else c
  }

  /** `s.lower()`, character by character. */
  function Lower(s: string): (r: string)
    ensures |r| == |s|
    ensures forall i :: 0 <= i < |s| ==> r[i] == LowerChar(s[i])
  {
    if s == [] then [] else [LowerChar(s[0])] + Lower(s[1..])
  }

  /** Lower-casing twice is lower-casing once. */
  lemma {:induction false} LowerIdempotent(s: string)
    ensures Lower(Lower(s)) == Lower(s)
  {
    if s != [] {
      LowerIdempotent(s[1..]);
      assert Lower(s) == [LowerChar(s[0])] + Lower(s[1..]);
      assert Lower(s)[1..] == Lower(s[1..]);
    }
  }

  /** A string with no upper-case ASCII letter and no KELVIN SIGN is its own lower-case form. */
  lemma {:induction false} LowerOfLowerCase(s: string)
    requires forall i :: 0 <= i < |s| ==> !('A' <= s[i] <= 'Z') && s[i] != '\U{212A}'
    ensures Lower(s) == s
  {
    if s != [] {
      LowerOfLowerCase(s[1..]);
    }
  }

  /** The fixed table of aliases, written in lower case. */
  const Aliases: map<string, string> := map[
    "scene" := "CustomEntity04",
    "node" := "CustomEntity05",
    "node_type" := "CustomNonProjectEntity01",
    "namespace" := "CustomEntity03",
    "pre_production" := "CustomEntity01"
  ]

  /**
   * `get_custom_entity_by_alias`: the custom entity name registered for the
   * lower-cased alias, or `None` when the alias is not in the table.
   */
  function GetCustomEntityByAlias(alias: string): (r: Option<string>)
    ensures Lower(alias) == "scene" ==> r == Some("CustomEntity04")
    ensures Lower(alias) == "node" ==> r == Some("CustomEntity05")
    ensures Lower(alias) == "node_type" ==> r == Some("CustomNonProjectEntity01")
    ensures Lower(alias) == "namespace" ==> r == Some("CustomEntity03")
    ensures Lower(alias) == "pre_production" ==> r == Some("CustomEntity01")
    ensures r == None <==>
      Lower(alias) !in {"scene", "node", "node_type", "namespace", "pre_production"}
  {
    var key := Lower(alias);
    if key in Aliases then Some(Aliases[key]) else None
  }

  /** The lookup ignores case: an alias and its lower-case form give the same answer. */
  lemma CaseInsensitive(alias: string)
    ensures GetCustomEntityByAlias(alias) == GetCustomEntityByAlias(Lower(alias))
  {
    LowerIdempotent(alias);
  }

  /** Two aliases that are equal once lower-cased give the same answer. */
  lemma SameLowerSameAnswer(a: string, b: string)
    requires Lower(a) == Lower(b)
    ensures GetCustomEntityByAlias(a) == GetCustomEntityByAlias(b)
  {
  }

  /** No two aliases of the table name the same entity type. */
  lemma TableIsInjective(a: string, b: string)
    requires GetCustomEntityByAlias(a).Some?
    requires GetCustomEntityByAlias(a) == GetCustomEntityByAlias(b)
    ensures Lower(a) == Lower(b)
  {
  }

  /** Every answer is one of the five custom entity names. */
  lemma AnswerIsCustomEntity(alias: string)
    requires GetCustomEntityByAlias(alias).Some?
    ensures GetCustomEntityByAlias(alias).value in
      {"CustomEntity04", "CustomEntity05", "CustomNonProjectEntity01", "CustomEntity03", "CustomEntity01"}
  {
  }

  /** "Scene" is the alias of `CustomEntity04`: the lookup lower-cases it first. */
  lemma SceneAlias()
    ensures GetCustomEntityByAlias("Scene") == Some("CustomEntity04")
  {
    var l := Lower("Scene");
    assert l[0] == 's' && l[1] == 'c' && l[2] == 'e' && l[3] == 'n' && l[4] == 'e';
    assert l == "scene";
  }

  /** "node_type" is the alias of `CustomNonProjectEntity01`. */
  lemma NodeTypeAlias()
    ensures GetCustomEntityByAlias("node_type") == Some("CustomNonProjectEntity01")
  {
    LowerOfLowerCase("node_type");
  }

  /** "pre_production" is the alias of `CustomEntity01`. */
  lemma PreProductionAlias()
    ensures GetCustomEntityByAlias("pre_production") == Some("CustomEntity01")
  {
    var s := "pre_production";
    assert forall i :: 0 <= i < |s| ==> s[i] in "abcdefghijklmnopqrstuvwxyz_";
    LowerOfLowerCase(s);
    assert Aliases[s] == "CustomEntity01";
  }

  /** "UnknownLabel" is not an alias. */
  lemma UnknownAlias()
    ensures GetCustomEntityByAlias("UnknownLabel") == None
  {
    var l := Lower("UnknownLabel");
    assert |l| == 12 && l[0] == 'u';
  }
}
