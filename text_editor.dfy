/**
 * The note editor (`text-editor.tsx`): a text area, a row of format toggles
 * and a submit that posts the note to `/api/info`.
 */
module TextEditor {
  import opened Wrappers
  import opened Text
  import opened Http

  /** `list.filter((f) => f !== format)`: every occurrence of `x` is dropped and
      the other entries keep their order. */
  function Without(s: seq<string>, x: string): (r: seq<string>)
    ensures x !in r
    ensures forall y :: y != x ==> (y in r <==> y in s)
    ensures |r| <= |s| && (x in s ==> |r| < |s|)
  {
    if s == [] then []
    else if s[0] == x then Without(s[1..], x)
    else [s[0]] + Without(s[1..], x)
  }

  /** Filtering distributes over concatenation, so the survivors stay in order. */
  lemma {:induction false} WithoutAppend(s: seq<string>, t: seq<string>, x: string)
    ensures Without(s + t, x) == Without(s, x) + Without(t, x)
  {
    if s == [] {
      assert s + t == t;
    } else {
      assert (s + t)[0] == s[0];
      assert (s + t)[1..] == s[1..] + t;
      WithoutAppend(s[1..], t, x);
    }
  }

  /** Filtering out a value that is not there changes nothing. */
  lemma {:induction false} WithoutAbsent(s: seq<string>, x: string)
    requires x !in s
    ensures Without(s, x) == s
  {
    if s != [] {
      assert s[1..] + [] == s[1..];
      assert x !in s[1..];
      WithoutAbsent(s[1..], x);
      assert [s[0]] + s[1..] == s;
    }
  }

  /** Filtering removes exactly the occurrences of `x` and keeps the count of
      every other value. */
  lemma {:induction false} WithoutCounts(s: seq<string>, x: string)
    ensures multiset(Without(s, x)) == multiset(s)[x := 0]
  {
    if s != [] {
      WithoutCounts(s[1..], x);
      assert s == [s[0]] + s[1..];
      assert multiset(s) == multiset{s[0]} + multiset(s[1..]);
    }
  }

  /** A list without repeated entries. */
  predicate Distinct(s: seq<string>) {
    forall i, j :: 0 <= i < j < |s| ==> s[i] != s[j]
  }

  lemma {:induction false} WithoutKeepsDistinct(s: seq<string>, x: string)
    requires Distinct(s)
    ensures Distinct(Without(s, x))
  {
    if s != [] {
      assert Distinct(s[1..]) by {
        forall i, j | 0 <= i < j < |s[1..]| ensures s[1..][i] != s[1..][j] {
          assert s[1..][i] == s[i + 1] && s[1..][j] == s[j + 1];
        }
      }
      WithoutKeepsDistinct(s[1..], x);
      if s[0] != x {
        assert s[0] !in s[1..] by {
          forall k | 0 <= k < |s[1..]| ensures s[1..][k] != s[0] {
            assert s[1..][k] == s[k + 1];
          }
        }
        assert s[0] !in Without(s[1..], x);
        var r := [s[0]] + Without(s[1..], x);
        forall i, j | 0 <= i < j < |r| ensures r[i] != r[j] {
          if i == 0 {
            assert r[j] == Without(s[1..], x)[j - 1];
          } else {
            assert r[i] == Without(s[1..], x)[i - 1] && r[j] == Without(s[1..], x)[j - 1];
          }
        }
      }
    }
  }

  /** `handleFormatText`: a selected format is deselected everywhere it occurs;
      an unselected one is appended at the end. */
  function Toggle(selected: seq<string>, format: string): (r: seq<string>)
    ensures format in selected ==> format !in r && |r| < |selected|
    ensures format !in selected ==> |r| == |selected| + 1 && r[..|selected|] == selected && r[|selected|] == format
    ensures forall f :: f != format ==> (f in r <==> f in selected)
  {
    if format in selected then Without(selected, format) else selected + [format]
  }

  /** Deselecting keeps every other format's count, and their order. */
  lemma ToggleOffKeepsOthers(selected: seq<string>, format: string, before: seq<string>, after: seq<string>)
    requires format in selected && selected == before + after
    ensures multiset(Toggle(selected, format)) == multiset(selected)[format := 0]
    ensures Toggle(selected, format) == Without(before, format) + Without(after, format)
  {
    WithoutCounts(selected, format);
    WithoutAppend(before, after, format);
  }

  /** A toggle never introduces a repeated format. */
  lemma ToggleKeepsDistinct(selected: seq<string>, format: string)
    requires Distinct(selected)
    ensures Distinct(Toggle(selected, format))
  {
    if format in selected {
      WithoutKeepsDistinct(selected, format);
    } else {
      var r := selected + [format];
      forall i, j | 0 <= i < j < |r| ensures r[i] != r[j] {
        if j == |selected| {
          assert r[i] == selected[i];
        } else {
          assert r[i] == selected[i] && r[j] == selected[j];
        }
      }
    }
  }

  /** Toggling an unselected format on and off again restores the exact list. */
  lemma ToggleTwiceRestores(selected: seq<string>, format: string)
    requires format !in selected
    ensures Toggle(Toggle(selected, format), format) == selected
  {
    var on := selected + [format];
    assert format in on;
    WithoutAppend(selected, [format], format);
    WithoutAbsent(selected, format);
    assert Without([format], format) == [];
    assert selected + [] == selected;
  }

  /** In a list without repeats, toggling a selected format off and on again
      moves it to the end. */
  lemma ToggleTwiceMovesToEnd(before: seq<string>, format: string, after: seq<string>)
    requires Distinct(before + [format] + after)
    ensures Toggle(Toggle(before + [format] + after, format), format) == before + after + [format]
  {
    var s := before + [format] + after;
    assert s[|before|] == format;
    assert format !in before by {
      forall k | 0 <= k < |before| ensures before[k] != format {
        assert s[k] == before[k];
      }
    }
    assert format !in after by {
      forall k | 0 <= k < |after| ensures after[k] != format {
        assert s[|before| + 1 + k] == after[k];
      }
    }
    WithoutAppend(before + [format], after, format);
    WithoutAppend(before, [format], format);
    WithoutAbsent(before, format);
    WithoutAbsent(after, format);
    assert Without([format], format) == [];
    assert before + [] == before;
  }

  /** How the `fetch` ended: an answer with its `ok` flag and the outcome of
      `response.text()`, or a throw. */
  datatype Reply =
    | Answered(ok: bool, text: Result<string, Thrown>)
    | Threw(e: Thrown)

  /** The note is saved only when the answer is OK and its text could be read. */
  predicate Saved(reply: Reply) {
    reply.Answered? && reply.ok && reply.text.Success?
  }

  class Editor {
    var content: string
    var isComplete: bool
    var selectedFormat: seq<string>
    var isLoading: bool
    /** The note whose answer is still awaited. */
    var pending: Option<string>
    /** The `content` of every note posted to `/api/info`, in order. */
    var requests: seq<string>

    /** Loading is on exactly while a note is in flight, the last one posted. */
    ghost predicate Valid()
      reads this
    {
      (isLoading <==> pending.Some?) &&
      (pending.Some? ==> |requests| > 0 && requests[|requests| - 1] == pending.value)
    }

    constructor ()
      ensures Valid() && content == "" && !isComplete && selectedFormat == [] && !isLoading && requests == []
    {
      content, isComplete, selectedFormat, isLoading := "", false, [], false;
      pending, requests := None, [];
    }

    /** The textarea's `onChange`. */
    method SetContent(value: string)
      requires Valid()
      modifies this
      ensures Valid() && content == value
      ensures isComplete == old(isComplete) && selectedFormat == old(selectedFormat)
      ensures isLoading == old(isLoading) && pending == old(pending) && requests == old(requests)
    {
      content := value;
    }

    /** A format button's `onClick`. */
    method FormatText(format: string)
      requires Valid()
      modifies this
      ensures Valid() && selectedFormat == Toggle(old(selectedFormat), format)
      ensures content == old(content) && isComplete == old(isComplete)
      ensures isLoading == old(isLoading) && pending == old(pending) && requests == old(requests)
    {
      if format in selectedFormat {
        selectedFormat := Without(selectedFormat, format);
      } else {
        selectedFormat := selectedFormat + [format];
      }
    }

    /** `handleCancel`: the note and the selected formats are cleared. */
    method Cancel()
      requires Valid()
      modifies this
      ensures Valid() && content == "" && selectedFormat == []
      ensures isComplete == old(isComplete)
      ensures isLoading == old(isLoading) && pending == old(pending) && requests == old(requests)
    {
      content := "";
      selectedFormat := [];
    }

    /** `handleSubmit` up to the `fetch`, which the disabled button blocks while
        loading: a blank note (see `BlankIffTrimEmpty`) changes nothing;
        otherwise loading starts and the note is posted. */
    method HandleSubmit() returns (sent: bool)
      requires Valid() && !isLoading
      modifies this
      ensures Valid()
      ensures sent <==> !IsBlank(content)
      ensures !sent ==> !isLoading && requests == old(requests)
      ensures sent ==> isLoading && requests == old(requests) + [content]
      ensures content == old(content) && isComplete == old(isComplete) && selectedFormat == old(selectedFormat)
    {
      if IsBlank(content) {
        return false;
      }
      isLoading := true;
      pending := Some(content);
      requests := requests + [content];
      sent := true;
    }

    /** The rest of `handleSubmit`, once the answer is in: a saved note clears
        the text and shows the confirmation, a failure keeps the text, and
        loading ends on every path. The confirmation is never taken back. */
    method ResponseArrives(reply: Reply)
      requires Valid() && isLoading
      modifies this
      ensures Valid() && !isLoading && pending.None?
      ensures Saved(reply) ==> content == "" && isComplete
      ensures !Saved(reply) ==> content == old(content) && isComplete == old(isComplete)
      ensures selectedFormat == old(selectedFormat) && requests == old(requests)
    {
      if Saved(reply) {
        content := "";
        isComplete := true;
      }
      isLoading := false;
      pending := None;
    }
  }
}
