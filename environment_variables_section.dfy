/**
  `EnvironmentVariablesSection`: installs the environment-variables
  section into a command's usage help. Two renderers are registered in
  the command's help section map, and their keys are spliced into the
  ordered list of section keys just before the footer heading, so that
  the new section prints after every existing section but the footer.
 */
module EnvironmentVariablesSection {
  import opened JavaLang
  import opened JavaUtil
  import opened EnvironmentVariablesRenderer

  const SECTION_KEY_ENV_HEADER: string := "environmentVariablesHeader"
  const SECTION_KEY_ENV_DETAILS: string := "environmentVariables"

  /** picocli's `UsageMessageSpec.SECTION_KEY_FOOTER_HEADING`, the anchor
      the new sections go before. */
  const SECTION_KEY_FOOTER_HEADING: string := "footerHeading"

  /** The renderers a help section map holds. */
  datatype SectionRenderer =
    | EnvironmentVariablesHeader      // the anonymous renderer of the line "Environment Variables:"
    | EnvironmentVariables(env: Env)  // an `EnvironmentVariablesRenderer` over env
    | Other(id: nat)                  // a renderer installed by picocli or by other code

  /** result is keys with the header key put at index i and the details key
      right after it; every key from i on moves two places right. */
  ghost predicate SplicedAt(keys: seq<string>, i: int, result: seq<string>)
  {
    && 0 <= i < |keys|
    && |result| == |keys| + 2
    && result[i] == SECTION_KEY_ENV_HEADER
    && result[i + 1] == SECTION_KEY_ENV_DETAILS
    && (forall j :: 0 <= j < i ==> result[j] == keys[j])
    && (forall j :: i <= j < |keys| ==> result[j + 2] == keys[j])
  }

  /** `insertKey(helpSectionKeys)`: a copy of the keys with the two new keys
      inserted where the footer heading was. When the footer heading is
      missing, `indexOf` answers -1 and the first `add` throws. */
  method InsertKey(helpSectionKeys: seq<string>) returns (r: Result<seq<string>>)
    ensures r.Failure? <==> SECTION_KEY_FOOTER_HEADING !in helpSectionKeys
    ensures r.Failure? ==> r.error == IndexOutOfBounds(-1, |helpSectionKeys|)
    ensures r.Success? ==>
      var i := FirstIndex(helpSectionKeys, SECTION_KEY_FOOTER_HEADING);
      SplicedAt(helpSectionKeys, i, r.value) && r.value[i + 2] == SECTION_KEY_FOOTER_HEADING
  {
    var index := IndexOf(helpSectionKeys, SECTION_KEY_FOOTER_HEADING);
    var result := new ArrayList<string>.Copy(helpSectionKeys);
    var added := result.Add(index, SECTION_KEY_ENV_HEADER);
    if added.Fail? {
      return Failure(added.error);
    }
    added := result.Add(index + 1, SECTION_KEY_ENV_DETAILS);
    assert added.Pass?;
    r := Success(result.elements);
  }

  /** Taking the two inserted keys out again gives back the original keys:
      no key is lost, duplicated or moved relative to the others. */
  lemma SpliceUndone(keys: seq<string>, i: int, result: seq<string>)
    requires SplicedAt(keys, i, result)
    ensures result[..i] + result[i + 2..] == keys
  {
  }

  /** The splice adds exactly the two new keys to the keys there were. */
  lemma {:induction false} SpliceMultiset(keys: seq<string>, i: int, result: seq<string>)
    requires SplicedAt(keys, i, result)
    ensures multiset(result) == multiset(keys) + multiset{SECTION_KEY_ENV_HEADER, SECTION_KEY_ENV_DETAILS}
  {
    SpliceUndone(keys, i, result);
    assert result == result[..i] + [result[i], result[i + 1]] + result[i + 2..];
    calc {
      multiset(result);
      multiset(result[..i]) + multiset([result[i], result[i + 1]]) + multiset(result[i + 2..]);
      multiset(result[..i] + result[i + 2..]) + multiset{SECTION_KEY_ENV_HEADER, SECTION_KEY_ENV_DETAILS};
    }
  }

  /** No key appears twice in s. */
  ghost predicate Distinct(s: seq<string>)
  {
    forall a, b :: 0 <= a < b < |s| ==> s[a] != s[b]
  }

  /** Where the key at index j of the original list ends up. */
  function NewIndex(j: nat, i: nat): nat
  {
    if j < i then j else j + 2
  }

  /** The splice keeps section keys unique when the two new keys were not
      there yet. The first two clauses only restate `SplicedAt` through
      `NewIndex`, a strictly increasing map of positions; `SpliceUndone` is
      the stronger statement that the original order is kept. */
  lemma {:induction false} SpliceKeepsOrder(keys: seq<string>, i: int, result: seq<string>)
    requires SplicedAt(keys, i, result)
    ensures forall j :: 0 <= j < |keys| ==> NewIndex(j, i) < |result| && result[NewIndex(j, i)] == keys[j]
    ensures forall a, b :: 0 <= a < b < |keys| ==> NewIndex(a, i) < NewIndex(b, i)
    ensures Distinct(keys) && SECTION_KEY_ENV_HEADER !in keys && SECTION_KEY_ENV_DETAILS !in keys ==>
      Distinct(result)
  {
    if Distinct(keys) && SECTION_KEY_ENV_HEADER !in keys && SECTION_KEY_ENV_DETAILS !in keys {
      forall a, b | 0 <= a < b < |result| ensures result[a] != result[b] {
        if a == i || a == i + 1 || b == i || b == i + 1 {
          var other := if a == i || a == i + 1 then b else a;
          if other != i && other != i + 1 {
            var j := if other < i then other else other - 2;
            assert result[other] == keys[j];
          }
        } else {
          var ja := if a < i then a else a - 2;
          var jb := if b < i then b else b - 2;
          assert result[a] == keys[ja] && result[b] == keys[jb];
        }
      }
    }
  }

  /** The command whose usage help is extended: its help section map and
      its ordered list of section keys. */
  class CommandLine {
    var helpSectionMap: map<string, SectionRenderer>
    var helpSectionKeys: seq<string>

    constructor (sectionMap: map<string, SectionRenderer>, sectionKeys: seq<string>)
      ensures helpSectionMap == sectionMap && helpSectionKeys == sectionKeys
    {
      helpSectionMap := sectionMap;
      helpSectionKeys := sectionKeys;
    }
  }

  /** The section map after the two `put` calls of `installRenderers`: both
      new keys map to their renderers and every other key keeps its own. */
  function WithEnvironmentRenderers(sectionMap: map<string, SectionRenderer>, env: Env)
    : (m: map<string, SectionRenderer>)
    ensures m.Keys == sectionMap.Keys + {SECTION_KEY_ENV_HEADER, SECTION_KEY_ENV_DETAILS}
    ensures m[SECTION_KEY_ENV_HEADER] == EnvironmentVariablesHeader
    ensures m[SECTION_KEY_ENV_DETAILS] == EnvironmentVariables(env)
    ensures forall k :: k in sectionMap && k != SECTION_KEY_ENV_HEADER && k != SECTION_KEY_ENV_DETAILS ==>
      m[k] == sectionMap[k]
  {
    sectionMap[SECTION_KEY_ENV_HEADER := EnvironmentVariablesHeader][SECTION_KEY_ENV_DETAILS := EnvironmentVariables(env)]
  }

  /** `installRenderers(env, cmd)`: registers both renderers, then replaces
      the key list with the spliced one. The renderers are registered
      before `insertKey` runs, so when it throws the map has changed and
      the key list has not. */
  method InstallRenderers(env: Env, cmd: CommandLine) returns (outcome: Outcome)
    modifies cmd
    ensures cmd.helpSectionMap == WithEnvironmentRenderers(old(cmd.helpSectionMap), env)
    ensures outcome.Pass? <==> SECTION_KEY_FOOTER_HEADING in old(cmd.helpSectionKeys)
    ensures outcome.Pass? ==>
      SplicedAt(old(cmd.helpSectionKeys),
                FirstIndex(old(cmd.helpSectionKeys), SECTION_KEY_FOOTER_HEADING),
                cmd.helpSectionKeys)
    ensures outcome.Fail? ==>
      && cmd.helpSectionKeys == old(cmd.helpSectionKeys)
      && outcome.error == IndexOutOfBounds(-1, |cmd.helpSectionKeys|)
  {
    cmd.helpSectionMap := cmd.helpSectionMap[SECTION_KEY_ENV_HEADER := EnvironmentVariablesHeader];
    cmd.helpSectionMap := cmd.helpSectionMap[SECTION_KEY_ENV_DETAILS := EnvironmentVariables(env)];
    var keys := InsertKey(cmd.helpSectionKeys);
    if keys.Failure? {
      return Fail(keys.error);
    }
    cmd.helpSectionKeys := keys.value;
    outcome := Pass;
  }

  /** Every key in the list has a renderer in the map. */
  ghost predicate EveryKeyRendered(keys: seq<string>, sectionMap: map<string, SectionRenderer>)
  {
    forall j :: 0 <= j < |keys| ==> keys[j] in sectionMap
  }

  /** Installing keeps every section key backed by a renderer. */
  lemma {:induction false} InstallKeepsEveryKeyRendered(
    keys: seq<string>, i: int, result: seq<string>, sectionMap: map<string, SectionRenderer>, env: Env)
    requires SplicedAt(keys, i, result)
    requires EveryKeyRendered(keys, sectionMap)
    ensures EveryKeyRendered(result, WithEnvironmentRenderers(sectionMap, env))
  {
    var m := WithEnvironmentRenderers(sectionMap, env);
    forall j | 0 <= j < |result| ensures result[j] in m {
      if j < i {
        assert result[j] == keys[j];
      } else if j >= i + 2 {
        assert result[j] == keys[j - 2];
      }
    }
  }

  /** Splicing into a list that ends with the option list and the footer
      heading, and into one without a footer heading. */
  method InsertKeyExample() {
    var keys := ["synopsis", "optionList", "footerHeading", "footer"];
    var r := InsertKey(keys);
    assert FirstIndex(keys, SECTION_KEY_FOOTER_HEADING) == 2 by {
      FirstIndexIsFirst(keys, SECTION_KEY_FOOTER_HEADING, 2);
    }
    SpliceUndone(keys, 2, r.value);
    assert r.value == ["synopsis", "optionList", SECTION_KEY_ENV_HEADER, SECTION_KEY_ENV_DETAILS,
                       "footerHeading", "footer"];
    var missing := InsertKey(["synopsis", "footer"]);
    assert missing == Failure(IndexOutOfBounds(-1, 2));
  }
}
