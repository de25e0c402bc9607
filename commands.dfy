/** The node-manipulating parts of the command-line commands, with prompting, printing
    and saving taken out: every answer the user would type is a parameter, and so is
    every clock reading and fresh uuid. */
module Commands {
  import opened Results
  import opened Text
  import opened Lists
  import opened Records
  import opened Models

  /** The input checks that end a command before it changes anything, and the failure
      of the snapshot step. */
  datatype CommandError =
    | EmptyTitle
    | InvalidMessageType
    | EmptyMessageText
    | EmptySummary
    | SnapshotFailed

  /** `[tag.strip() for tag in input.split(",") if tag.strip()]`. */
  function ParseTags(input: string): (tags: seq<string>)
    ensures forall i :: 0 <= i < |tags| ==> tags[i] != [] && Trimmed(tags[i]) && ',' !in tags[i]
  {
    KeepStripped(Split(input, ','))
  }

  /** The stripped pieces that are not empty, in their order. */
  function KeepStripped(pieces: seq<string>): (kept: seq<string>)
    ensures forall i :: 0 <= i < |kept| ==> kept[i] != [] && Trimmed(kept[i])
    ensures (forall p :: p in pieces ==> ',' !in p) ==>
              forall i :: 0 <= i < |kept| ==> ',' !in kept[i]
  {
    if pieces == [] then []
    else
      var t := Strip(pieces[0]);
      assert ',' in t ==> ',' in pieces[0] by {
        if ',' in t { StripKeeps(pieces[0], ','); }
      }
      if t == [] then KeepStripped(pieces[1..]) else [t] + KeepStripped(pieces[1..])
  }

  lemma {:induction false} KeepStrippedConcat(a: seq<string>, b: seq<string>)
    ensures KeepStripped(a + b) == KeepStripped(a) + KeepStripped(b)
  {
    if a == [] {
      assert a + b == b;
    } else {
      assert (a + b)[0] == a[0] && (a + b)[1..] == a[1..] + b;
      KeepStrippedConcat(a[1..], b);
    }
  }

  /** Tags are read left to right: the tags of `a + "," + b` are those of `a` followed by
      those of `b`. */
  lemma ParseTagsConcat(a: string, b: string)
    ensures ParseTags(a + [','] + b) == ParseTags(a) + ParseTags(b)
  {
    SplitAppend(a, b, ',');
    KeepStrippedConcat(Split(a, ','), Split(b, ','));
  }

  /** A comma-free input holds one tag, its stripped text, unless that is empty. */
  lemma ParseTagsOfOne(s: string)
    requires ',' !in s
    ensures ParseTags(s) == if Strip(s) == [] then [] else [Strip(s)]
  {
    SplitNoSeparator(s, ',');
    assert [s][0] == s && [s][1..] == [];
    assert KeepStripped([s]) == (if Strip(s) == [] then [] else [Strip(s)]) + KeepStripped([]);
  }

  /** Tags that are non-empty, stripped and comma-free survive joining with commas and
      parsing back, in order. */
  lemma ParseTagsJoin(tags: seq<string>)
    requires forall i :: 0 <= i < |tags| ==> tags[i] != [] && Trimmed(tags[i]) && ',' !in tags[i]
    ensures ParseTags(Join(tags, ',')) == tags
  {
    if tags == [] {
      assert Split([], ',') == [[]];
    } else {
      SplitJoin(tags, ',');
      KeepStrippedOfTrimmed(tags);
    }
  }

  lemma {:induction false} KeepStrippedOfTrimmed(tags: seq<string>)
    requires forall i :: 0 <= i < |tags| ==> tags[i] != [] && Trimmed(tags[i]) && ',' !in tags[i]
    ensures KeepStripped(tags) == tags
  {
    if tags != [] {
      KeepStrippedOfTrimmed(tags[1..]);
      assert tags == [tags[0]] + tags[1..];
    }
  }

  /** Whitespace-only input holds no tags, so the `tags_input.strip()` check before parsing
      a prompted answer changes nothing. */
  lemma ParseTagsOfBlank(s: string)
    requires AllSpace(s)
    ensures ParseTags(s) == []
  {
    SplitOfBlank(s);
    KeepStrippedOfBlank(Split(s, ','));
  }

  lemma {:induction false} SplitOfBlank(s: string)
    requires AllSpace(s)
    ensures forall i :: 0 <= i < |Split(s, ',')| ==> AllSpace(Split(s, ',')[i])
  {
    if s != [] {
      SplitOfBlank(s[1..]);
    }
  }

  lemma {:induction false} KeepStrippedOfBlank(pieces: seq<string>)
    requires forall i :: 0 <= i < |pieces| ==> AllSpace(pieces[i])
    ensures KeepStripped(pieces) == []
  {
    if pieces != [] {
      KeepStrippedOfBlank(pieces[1..]);
    }
  }

  /** The summary of a forked node. A `--notes` value is used as given; otherwise the
      prompted answer, stripped, when it is not blank. */
  function ForkSummary(originalTitle: string, notesOption: string, notesPrompt: string)
    : (summary: string)
    ensures "Forked from " + originalTitle <= summary
    ensures summary == "Forked from " + originalTitle <==>
              notesOption == [] && AllSpace(notesPrompt)
    ensures notesOption != [] ==>
              summary == "Forked from " + originalTitle + ". Reason: " + notesOption
    ensures notesOption == [] && !AllSpace(notesPrompt) ==>
              summary == "Forked from " + originalTitle + ". Reason: " + Strip(notesPrompt)
  {
    if notesOption != [] then
      "Forked from " + originalTitle + ". Reason: " + notesOption
    else if Strip(notesPrompt) != [] then
      "Forked from " + originalTitle + ". Reason: " + Strip(notesPrompt)
    else
      "Forked from " + originalTitle
  }

  /** The checks of the `snapshot` command before it would create a version: the summary
      label must not be blank and is stripped; the notes are the `--notes` value, or else
      the stripped prompted answer. */
  function SnapshotArgs(summary: string, notesOption: string, notesPrompt: string)
    : (r: Result<(string, string), CommandError>)
    ensures r.Err? <==> AllSpace(summary)
    ensures r.Err? ==> r.error == EmptySummary
    ensures r.Ok? ==> r.value.0 == Strip(summary) && r.value.0 != [] && Trimmed(r.value.0)
    ensures r.Ok? ==> r.value.1 == if notesOption != [] then notesOption else Strip(notesPrompt)
  {
    if Strip(summary) == [] then Err(EmptySummary)
    else Ok((Strip(summary), if notesOption != [] then notesOption else Strip(notesPrompt)))
  }

  /** The `snapshot` command once the node is loaded, as the source has it: after the
      argument checks it calls `create_snapshot`, a method `ThoughtNode` does not have,
      so the call always raises; the error is caught and the command exits before
      saving. Nothing about the node changes either way. */
  method Snapshot(node: ThoughtNode, summary: string, notesOption: string, notesPrompt: string)
    returns (r: Result<nat, CommandError>)
    ensures r.Err?
    ensures r.error == if AllSpace(summary) then EmptySummary else SnapshotFailed
  {
    var args := SnapshotArgs(summary, notesOption, notesPrompt);
    if args.Err? {
      return Err(args.error);
    }
    return Err(SnapshotFailed);
  }

  /** Some spelling of `w` in which any letter may be upper-case instead. */
  predicate CaseVariantOf(s: string, w: string) {
    |s| == |w| && forall i :: 0 <= i < |s| ==> s[i] == w[i] || s[i] as int == w[i] as int - 32
  }

  /** Lower-casing gives a lower-case word exactly for its case variants. */
  lemma LowerIsWord(s: string, w: string)
    requires forall i :: 0 <= i < |w| ==> 'a' <= w[i] <= 'z'
    ensures Lower(s) == w <==> CaseVariantOf(s, w)
  {
    if |s| == |w| {
      if CaseVariantOf(s, w) {
        forall i | 0 <= i < |s| ensures Lower(s)[i] == w[i] {
          assert 'a' <= w[i] <= 'z';
        }
      }
    }
  }

  /** The `--type` of `add-message` (thoughts.py:130) is accepted exactly when it spells
      "user" or "ai" in any mix of cases, and it picks that type. */
  lemma MessageTypeInput(s: string)
    ensures TypeOfValue(Lower(s)) == Some(User) <==> CaseVariantOf(s, "user")
    ensures TypeOfValue(Lower(s)) == Some(AI) <==> CaseVariantOf(s, "ai")
    ensures TypeOfValue(Lower(s)) == None <==>
              !CaseVariantOf(s, "user") && !CaseVariantOf(s, "ai")
  {
    LowerIsWord(s, "user");
    LowerIsWord(s, "ai");
  }

  /** The tag loop of `create`: each tag is added in turn to a node that has none yet, so
      repeats are collapsed and first occurrences kept in order; every addition stamps the
      node with `stamp`. */
  method AddTags(node: ThoughtNode, tagList: seq<string>, stamp: string)
    requires node.tags == []
    modifies node
    ensures node.View() == old(node.View()).(tags := Dedup(tagList),
      updatedAt := if tagList == [] then old(node.updatedAt) else stamp)
  {
    ghost var start := node.View();
    for i := 0 to |tagList|
      invariant node.View() == start.(tags := Dedup(tagList[..i]),
        updatedAt := if i == 0 then start.updatedAt else stamp)
    {
      assert tagList[..i + 1][..i] == tagList[..i];
      assert Dedup(tagList[..i + 1]) == AppendIfAbsent(Dedup(tagList[..i]), tagList[i]);
      node.AddTag(tagList[i], stamp);
    }
    assert tagList[..|tagList|] == tagList;
  }

  /** `create`: a blank title builds nothing; otherwise a node with the stripped title
      and each parsed tag added in turn (see `AddTags`). `tagStamp` is the clock reading of
      the tag additions. */
  method Create(title: string, tagsInput: string, id: string, createdAt: string,
                updatedAt: string, tagStamp: string)
    returns (r: Result<ThoughtNode, CommandError>)
    ensures r.Err? <==> AllSpace(title)
    ensures r.Err? ==> r.error == EmptyTitle
    ensures r.Ok? ==> fresh(r.value)
    ensures r.Ok? ==> (r.value.View() ==
      NodeView(id, Strip(title), Dedup(ParseTags(tagsInput)), createdAt,
               if ParseTags(tagsInput) == [] then updatedAt else tagStamp,
               [], NoLinks(), [], ""))
  {
    var stripped := Strip(title);
    if stripped == [] {
      return Err(EmptyTitle);
    }
    var tagList := ParseTags(tagsInput);
    var node := new ThoughtNode(id, stripped, [], createdAt, updatedAt, [], NoLinks(), [], "");
    AddTags(node, tagList, tagStamp);
    return Ok(node);
  }

  /** The `add-message` command once the node is loaded: an unknown type (matched after
      lower-casing) or a blank text changes nothing; otherwise the stripped text is added. */
  method AddMessage(node: ThoughtNode, typeInput: string, text: string, stamp: string,
                    now: string)
    returns (r: Result<(), CommandError>)
    modifies node
    ensures r.Ok? <==> TypeOfValue(Lower(typeInput)).Some? && !AllSpace(text)
    ensures TypeOfValue(Lower(typeInput)).None? ==> r == Err(InvalidMessageType)
    ensures TypeOfValue(Lower(typeInput)).Some? && AllSpace(text) ==> r == Err(EmptyMessageText)
    ensures r.Err? ==> unchanged(node)
    ensures r.Ok? ==> node.View() == old(node.View()).(
      content := old(node.content) +
                 [Message(TypeOfValue(Lower(typeInput)).value, Strip(text), stamp)],
      updatedAt := now)
  {
    var typ := TypeOfValue(Lower(typeInput));
    if typ.None? {
      return Err(InvalidMessageType);
    }
    if Strip(text) == [] {
      return Err(EmptyMessageText);
    }
    node.AddMessage(typ.value, Strip(text), stamp, now);
    return Ok(());
  }

  /** `fork`: a blank title changes nothing. Otherwise a new node gets the stripped title,
      the original's transcript and tags, the original as its one parent and the fork
      summary, and the original lists the new node among its forks. */
  method Fork(original: ThoughtNode, title: string, notesOption: string, notesPrompt: string,
              forkedId: string, createdAt: string, updatedAt: string, parentStamp: string,
              forkStamp: string)
    returns (r: Result<ThoughtNode, CommandError>)
    modifies original
    ensures r.Err? <==> AllSpace(title)
    ensures r.Err? ==> r.error == EmptyTitle && unchanged(original)
    ensures r.Ok? ==> fresh(r.value)
    ensures r.Ok? ==> (r.value.View() ==
      NodeView(forkedId, Strip(title), old(original.tags), createdAt, parentStamp,
               old(original.content), Links([old(original.id)], [], []), [],
               ForkSummary(old(original.title), notesOption, notesPrompt)))
    ensures r.Ok? ==> forkedId in original.links.forks
    ensures r.Ok? ==> original.View() == old(original.View()).(
      links := old(original.links).(forks := AppendIfAbsent(old(original.links.forks), forkedId)),
      updatedAt := if forkedId in old(original.links.forks) then old(original.updatedAt)
                   else forkStamp)
  {
    if Strip(title) == [] {
      return Err(EmptyTitle);
    }
    var forked := new ThoughtNode(forkedId, Strip(title), [], createdAt, updatedAt, [],
                                  NoLinks(), [], "");
    forked.content := original.content;
    forked.tags := original.tags;
    forked.summary := original.summary;
    forked.AddParent(original.id, parentStamp);
    forked.summary := ForkSummary(original.title, notesOption, notesPrompt);
    original.AddFork(forked.id, forkStamp);
    return Ok(forked);
  }
}
