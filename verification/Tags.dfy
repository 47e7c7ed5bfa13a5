/** The tags of a work item: which of the given ones are kept, and how they are stored. */
module Tags {
  import opened Protocol
  import RequestIdentity

  /** Some tag of the list is this one, once it is stripped. */
  predicate Given(tags: seq<string>, tag: string) {
    exists k :: 0 <= k < |tags| && RequestIdentity.Strip(tags[k]) == tag
  }

  /** The first place from `from` on at which the tag was given, or the end of the list. */
  function FirstGiven(tags: seq<string>, tag: string, from: nat): (k: nat)
    requires from <= |tags|
    ensures from <= k <= |tags| && (k < |tags| ==> RequestIdentity.Strip(tags[k]) == tag)
    ensures forall j :: from <= j < k ==> RequestIdentity.Strip(tags[j]) != tag
    decreases |tags| - from
  {
    if from == |tags| || RequestIdentity.Strip(tags[from]) == tag then from else FirstGiven(tags, tag, from + 1)
  }

  /** The tags that are kept are those that were given and are not blank, each once, in the order
      in which they were first given. */
  lemma {:induction false} TagsAreKeptOnce(tags: seq<string>)
    ensures forall tag :: tag in TagList(tags) <==> tag != "" && Given(tags, tag)
    ensures forall m, n :: 0 <= m < n < |TagList(tags)| ==>
              FirstGiven(tags, TagList(tags)[m], 0) < FirstGiven(tags, TagList(tags)[n], 0) < |tags|
  {
    hide RequestIdentity.Strip, Given, FirstGiven;
    if tags != [] {
      var last := |tags| - 1;
      var front := tags[..last];
      var kept := TagList(front);
      TagsAreKeptOnce(front);
      forall tag ensures tag in TagList(tags) <==> tag != "" && Given(tags, tag) {
        GivenBefore(tags, tag);
      }
      forall m, n | 0 <= m < n < |TagList(tags)|
        ensures FirstGiven(tags, TagList(tags)[m], 0) < FirstGiven(tags, TagList(tags)[n], 0) < |tags|
      {
        assert kept[m] in kept;
        FirstGivenBefore(tags, kept[m]);
        if n < |kept| {
          assert kept[n] in kept;
          FirstGivenBefore(tags, kept[n]);
        } else {
          LastIsNew(tags);
        }
      }
    } else {
      NothingGiven();
    }
  }

  lemma {:induction false} NothingGiven()
    ensures forall tag :: !Given([], tag)
  {
  }

  lemma {:induction false} GivenBefore(tags: seq<string>, tag: string)
    requires tags != []
    ensures Given(tags, tag) <==> Given(tags[..|tags| - 1], tag) || RequestIdentity.Strip(tags[|tags| - 1]) == tag
  {
    hide RequestIdentity.Strip;
    if Given(tags[..|tags| - 1], tag) {
      var k :| 0 <= k < |tags| - 1 && RequestIdentity.Strip(tags[..|tags| - 1][k]) == tag;
      assert RequestIdentity.Strip(tags[k]) == tag;
    }
    if Given(tags, tag) {
      var k :| 0 <= k < |tags| && RequestIdentity.Strip(tags[k]) == tag;
      assert k < |tags| - 1 ==> tags[..|tags| - 1][k] == tags[k];
    }
  }

  lemma {:induction false} FirstGivenBefore(tags: seq<string>, tag: string)
    requires tags != [] && Given(tags[..|tags| - 1], tag)
    ensures FirstGiven(tags, tag, 0) == FirstGiven(tags[..|tags| - 1], tag, 0) < |tags| - 1
  {
    hide RequestIdentity.Strip, FirstGiven;
    var front := tags[..|tags| - 1];
    var j :| 0 <= j < |front| && RequestIdentity.Strip(front[j]) == tag;
    var k, n := FirstGiven(front, tag, 0), FirstGiven(tags, tag, 0);
    assert RequestIdentity.Strip(tags[j]) == tag;
    assert front[k] == tags[k] && front[n] == tags[n];
  }

  lemma {:induction false} LastIsNew(tags: seq<string>)
    requires tags != [] && |TagList(tags)| == |TagList(tags[..|tags| - 1])| + 1
    requires !Given(tags[..|tags| - 1], RequestIdentity.Strip(tags[|tags| - 1]))
    ensures FirstGiven(tags, TagList(tags)[|TagList(tags)| - 1], 0) == |tags| - 1
  {
    hide RequestIdentity.Strip, FirstGiven;
    var front, tag := tags[..|tags| - 1], RequestIdentity.Strip(tags[|tags| - 1]);
    var n := FirstGiven(tags, tag, 0);
    assert tags == front + [tags[|tags| - 1]];
  }

  // ------------------------------------------------------------ storing them

  predicate FreeOfCommas(text: string) {
    ',' !in text
  }

  /** `text.split(",")` */
  function SplitAtCommas(text: string): (r: seq<string>)
    ensures r != []
  {
    if text == "" then [""]
    else
      var r, c := SplitAtCommas(text[..|text| - 1]), text[|text| - 1];
      if c == ',' then r + [""] else r[..|r| - 1] + [r[|r| - 1] + [c]]
  }

  lemma {:induction false} SplitAfter(text: string, more: string)
    requires FreeOfCommas(more)
    ensures var r := SplitAtCommas(text); SplitAtCommas(text + more) == r[..|r| - 1] + [r[|r| - 1] + more]
  {
    var r := SplitAtCommas(text);
    if more == "" {
      assert text + more == text && r[|r| - 1] + more == r[|r| - 1];
    } else {
      var front, c := more[..|more| - 1], more[|more| - 1];
      SplitAfter(text, front);
      assert (text + more)[..|text + more| - 1] == text + front;
      assert more == front + [c];
      assert r[|r| - 1] + more == (r[|r| - 1] + front) + [c];
    }
  }

  lemma {:induction false} SplitAtComma(text: string, more: string)
    requires FreeOfCommas(more)
    ensures SplitAtCommas(text + "," + more) == SplitAtCommas(text) + [more]
  {
    assert (text + ",")[..|text|] == text;
    assert SplitAtCommas(text + ",") == SplitAtCommas(text) + [""];
    SplitAfter(text + ",", more);
    assert "" + more == more;
  }

  /** Stored tags can be told apart again: splitting the stored text at its commas gives them back
      in order, as long as no tag holds a comma itself. */
  lemma {:induction false} StoredTagsSplit(tags: seq<string>)
    requires tags != [] && forall k :: 0 <= k < |tags| ==> FreeOfCommas(tags[k])
    ensures SplitAtCommas(Joined(tags)) == tags
  {
    hide FreeOfCommas, SplitAtCommas;
    var last := |tags| - 1;
    if last == 0 {
      SplitOne(tags[0]);
    } else {
      StoredTagsSplit(tags[..last]);
      SplitAtComma(Joined(tags[..last]), tags[last]);
      assert tags == tags[..last] + [tags[last]];
    }
  }

  lemma {:induction false} SplitOne(text: string)
    requires FreeOfCommas(text)
    ensures SplitAtCommas(text) == [text]
  {
    SplitAfter("", text);
    assert "" + text == text;
  }
}
