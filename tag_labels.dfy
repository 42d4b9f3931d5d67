/** Tag label resolution in Exporter.Collect (main.go:112-138): the configured
    label names start out empty, each `key=value` tag fills the label named by
    its key unless that label already holds a non-empty value. */
module TagLabels {
  import opened Wrappers

  /** strings.SplitN(tag, "=", 2) seen as an optional pair: None when the tag
      has no `=` (one part), otherwise the text before the first `=` and
      everything after it. */
  function SplitFirst(tag: string): (r: Option<(string, string)>)
    ensures r.None? <==> '=' !in tag
    ensures r.Some? ==> tag == r.value.0 + "=" + r.value.1 && '=' !in r.value.0
  {
    if tag == [] then None
    else if tag[0] == '=' then Some(([], tag[1..]))
    else match SplitFirst(tag[1..]) {
      case None => None
      case Some(kv) =>
        assert tag == [tag[0]] + tag[1..];
        Some(([tag[0]] + kv.0, kv.1))
    }
  }

  /** The split happens at the first `=` only: the key is the text before it
      and the value keeps every later `=`. */
  lemma {:induction false} SplitAtFirstOnly(key: string, value: string)
    requires '=' !in key
    ensures SplitFirst(key + "=" + value) == Some((key, value))
  {
    var tag := key + "=" + value;
    if key == [] {
      assert tag == "=" + value && tag[1..] == value;
    } else {
      assert tag[1..] == key[1..] + "=" + value;
      SplitAtFirstOnly(key[1..], value);
      assert [tag[0]] + key[1..] == key;
    }
  }

  /** The label map as initialised: every configured name maps to "". */
  function EmptyLabels(names: seq<string>): (m: map<string, string>)
    ensures forall k :: k in m <==> k in names
    ensures forall k :: k in m ==> m[k] == ""
  {
    map k | k in names :: ""
  }

  /** The effect of one tag on the label map (one pass of the loop at
      main.go:118-138). Empty, malformed and unknown tags are ignored, and so
      is a tag whose label already holds a non-empty value. */
  function ApplyTag(m: map<string, string>, tag: string): (r: map<string, string>)
    ensures r.Keys == m.Keys
    ensures forall k :: k in m && m[k] != "" ==> r[k] == m[k]
    ensures tag == "" || '=' !in tag ==> r == m
    ensures '=' in tag && SplitFirst(tag).value.0 !in m ==> r == m
    ensures '=' in tag && SplitFirst(tag).value.0 in m && m[SplitFirst(tag).value.0] == "" ==>
      r == m[SplitFirst(tag).value.0 := SplitFirst(tag).value.1]
    ensures '=' in tag && SplitFirst(tag).value.0 in m && m[SplitFirst(tag).value.0] != "" ==> r == m
  {
    if tag == "" then m
    else match SplitFirst(tag) {
      case None => m
      case Some(kv) =>
        if kv.0 !in m then m
        else if m[kv.0] != "" then m
        else m[kv.0 := kv.1]
    }
  }

  /** The label map after the given tags, in the order the registry returned them. */
  function ApplyTags(m: map<string, string>, tags: seq<string>): map<string, string>
  {
    if tags == [] then m else ApplyTag(ApplyTags(m, tags[..|tags| - 1]), tags[|tags| - 1])
  }

  /** The label map Collect builds for configured names and an instance's tags. */
  function ResolvedLabels(names: seq<string>, tags: seq<string>): map<string, string>
  {
    ApplyTags(EmptyLabels(names), tags)
  }

  /** The tag sets label `key` to a non-empty value. */
  predicate Defines(tag: string, key: string) {
    var kv := SplitFirst(tag);
    kv.Some? && kv.value.0 == key && kv.value.1 != ""
  }

  /** Reference definition, label by label: the value of the first tag that
      gives `key` a non-empty value, or "" when no tag does. */
  function FirstValue(key: string, tags: seq<string>): string
  {
    if tags == [] then ""
    else if Defines(tags[0], key) then SplitFirst(tags[0]).value.1
    else FirstValue(key, tags[1..])
  }

  lemma {:induction false} FirstValueSnoc(key: string, tags: seq<string>, tag: string)
    ensures FirstValue(key, tags + [tag]) ==
      if FirstValue(key, tags) != "" then FirstValue(key, tags)
      else if Defines(tag, key) then SplitFirst(tag).value.1
      else ""
  {
    if tags == [] {
      assert [] + [tag] == [tag];
      assert [tag][1..] == [];
    } else {
      assert (tags + [tag])[1..] == tags[1..] + [tag];
      FirstValueSnoc(key, tags[1..], tag);
    }
  }

  /** The map fold and the label-by-label reference agree: after all tags,
      the configured names are exactly the keys, and each holds the first
      non-empty value given to it, or "" when none is. */
  lemma {:induction false} ResolveMeaning(names: seq<string>, tags: seq<string>)
    ensures forall k :: k in ResolvedLabels(names, tags) <==> k in names
    ensures forall k :: k in ResolvedLabels(names, tags) ==>
      ResolvedLabels(names, tags)[k] == FirstValue(k, tags)
  {
    if tags != [] {
      var prefix, last := tags[..|tags| - 1], tags[|tags| - 1];
      assert tags == prefix + [last];
      ResolveMeaning(names, prefix);
      forall k | k in ResolvedLabels(names, tags)
        ensures ResolvedLabels(names, tags)[k] == FirstValue(k, tags)
      {
        FirstValueSnoc(k, prefix, last);
      }
    }
  }

  /** First writer wins: once a label holds a non-empty value, no later tag changes it. */
  lemma {:induction false} FirstNonEmptyWins(m: map<string, string>, tags: seq<string>, key: string)
    requires key in m && m[key] != ""
    ensures key in ApplyTags(m, tags) && ApplyTags(m, tags)[key] == m[key]
  {
    if tags != [] {
      FirstNonEmptyWins(m, tags[..|tags| - 1], key);
    }
  }

  /** A tag that defines nothing for `key` can be dropped from anywhere in the
      list without changing the first value `key` receives. */
  lemma {:induction false} FirstValueSkip(key: string, before: seq<string>, tag: string, after: seq<string>)
    requires !Defines(tag, key)
    ensures FirstValue(key, before + [tag] + after) == FirstValue(key, before + after)
  {
    if before == [] {
      assert before + [tag] + after == [tag] + after;
      assert ([tag] + after)[1..] == after;
      assert before + after == after;
    } else {
      assert (before + [tag] + after)[0] == before[0];
      assert (before + [tag] + after)[1..] == before[1..] + [tag] + after;
      assert (before + after)[0] == before[0];
      assert (before + after)[1..] == before[1..] + after;
      FirstValueSkip(key, before[1..], tag, after);
    }
  }

  /** A tag with an empty value (`key=`), wherever it stands among the tags,
      does not block a later `key=value`: the resolved labels are those
      obtained without it. */
  lemma EmptyValueDoesNotBlock(names: seq<string>, before: seq<string>, key: string, after: seq<string>)
    requires '=' !in key
    ensures ResolvedLabels(names, before + [key + "="] + after) == ResolvedLabels(names, before + after)
  {
    var withEmpty := before + [key + "="] + after;
    SplitAtFirstOnly(key, "");
    assert key + "=" == key + "=" + "";
    ResolveMeaning(names, withEmpty);
    ResolveMeaning(names, before + after);
    forall k | k in names
      ensures FirstValue(k, withEmpty) == FirstValue(k, before + after)
    {
      FirstValueSkip(k, before, key + "=", after);
    }
  }

  /** Two tags for the same configured label, the first with a non-empty
      value (`env=prod` then `env=staging`): the first one is kept. */
  lemma DuplicateTagKeepsFirst(key: string, first: string, second: string)
    requires '=' !in key && first != ""
    ensures ResolvedLabels([key], [key + "=" + first, key + "=" + second]) == map[key := first]
  {
    var tags := [key + "=" + first, key + "=" + second];
    SplitAtFirstOnly(key, first);
    assert Defines(tags[0], key);
    ResolveMeaning([key], tags);
  }

  /** The loop of main.go:112-138, building the label map in place. */
  method ResolveLabels(names: seq<string>, tags: seq<string>) returns (labels: map<string, string>)
    ensures labels == ResolvedLabels(names, tags)
    ensures forall k :: k in labels <==> k in names
    ensures forall k :: k in labels ==> labels[k] == FirstValue(k, tags)
  {
    labels := map[];
    for i := 0 to |names|
      invariant labels == EmptyLabels(names[..i])
    {
      assert names[..i + 1] == names[..i] + [names[i]];
      labels := labels[names[i] := ""];
    }
    assert names[..|names|] == names;
    for i := 0 to |tags|
      invariant labels == ApplyTags(EmptyLabels(names), tags[..i])
    {
      assert tags[..i + 1][..i] == tags[..i];
      var tag := tags[i];
      if tag == "" {
        continue;
      }
      var kv := SplitFirst(tag);
      if kv.None? {
        continue;  // malformed tag: no `=`
      }
      var (key, value) := kv.value;
      if key !in labels {
        continue;  // not a configured label
      }
      if labels[key] != "" {
        continue;  // already defined by an earlier tag
      }
      labels := labels[key := value];
    }
    assert tags[..|tags|] == tags;
    ResolveMeaning(names, tags);
  }
}
