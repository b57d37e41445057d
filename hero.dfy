/** The landing page's prompt (`Hero`): its submit guard, and the cleaning of
    the model's reply before it is read as JSON: every "```json" removed,
    then every "```", then the ends trimmed. Removal follows a global
    replace: the text is scanned left to right and matches do not
    overlap. */
module Hero {
  import opened Wrappers
  import opened Text
  import opened Chat

  const Fence: string := "```"
  const JsonFence: string := "```json"

  /** `pat` occurs in `s` starting at index `i`. */
  predicate HasAt(s: string, pat: string, i: int) {
    0 <= i && i + |pat| <= |s| && s[i..i + |pat|] == pat
  }

  ghost predicate Contains(s: string, pat: string) {
    exists i :: HasAt(s, pat, i)
  }

  /** `s.replace(/pat/g, "")`. */
  function RemoveAll(s: string, pat: string): (r: string)
    requires pat != []
    ensures |r| <= |s|
    decreases |s|
  {
    if |s| < |pat| then s
    else if s[..|pat|] == pat then RemoveAll(s[|pat|..], pat)
    else [s[0]] + RemoveAll(s[1..], pat)
  }

  /** The reply as the page cleans it. */
  function Clean(text: string): (r: string)
    ensures |r| <= |text|
  {
    Trim(RemoveAll(RemoveAll(text, JsonFence), Fence))
  }

  /** An occurrence in a tail is an occurrence in the whole. */
  lemma HasAtShift(c: char, s: string, pat: string, i: int)
    requires HasAt(s, pat, i)
    ensures HasAt([c] + s, pat, i + 1)
  {
    assert ([c] + s)[i + 1..i + 1 + |pat|] == s[i..i + |pat|];
  }

  /** An occurrence past the head is an occurrence in the tail. */
  lemma HasAtUnshift(c: char, s: string, pat: string, i: int)
    requires HasAt([c] + s, pat, i) && i >= 1
    ensures HasAt(s, pat, i - 1)
  {
    assert ([c] + s)[i..i + |pat|] == s[i - 1..i - 1 + |pat|];
  }

  /** The tail of text without the pattern has none either. */
  lemma TailKeepsAbsent(c: char, tail: string, pat: string)
    requires !Contains([c] + tail, pat)
    ensures !Contains(tail, pat)
  {
    forall i | HasAt(tail, pat, i)
      ensures HasAt([c] + tail, pat, i + 1)
    {
      HasAtShift(c, tail, pat, i);
    }
  }

  /** Text without the pattern comes back unchanged. */
  lemma {:induction false} RemoveAllAbsent(s: string, pat: string)
    requires pat != [] && !Contains(s, pat)
    ensures RemoveAll(s, pat) == s
    decreases |s|
  {
    if |s| >= |pat| {
      assert !HasAt(s, pat, 0);
      var tail := s[1..];
      assert s == [s[0]] + tail;
      TailKeepsAbsent(s[0], tail, pat);
      RemoveAllAbsent(tail, pat);
    }
  }

  /** Removal passes over a prefix without backticks unchanged, for a
      pattern that starts with one. */
  lemma {:induction false} RemoveAllPastPrefix(x: string, y: string, pat: string)
    requires '`' !in x && pat != [] && pat[0] == '`'
    ensures RemoveAll(x + y, pat) == x + RemoveAll(y, pat)
    decreases |x|
  {
    if x != [] {
      var s := x + y;
      assert s[0] == x[0] && s[1..] == x[1..] + y;
      if |s| >= |pat| {
        assert s[..|pat|] != pat by {
          assert s[..|pat|][0] == x[0];
        }
      }
      RemoveAllPastPrefix(x[1..], y, pat);
      assert [x[0]] + (x[1..] + RemoveAll(y, pat)) == x + RemoveAll(y, pat);
    } else {
      assert x + y == y;
    }
  }

  /** No fence is left after removing the fences. */
  lemma {:induction false} NoFenceLeft(s: string)
    ensures !Contains(RemoveAll(s, Fence), Fence)
    decreases |s|
  {
    var r := RemoveAll(s, Fence);
    if |s| < |Fence| {
    } else if s[..|Fence|] == Fence {
      NoFenceLeft(s[|Fence|..]);
    } else {
      var u := s[1..];
      var rest := RemoveAll(u, Fence);
      NoFenceLeft(u);
      assert r == [s[0]] + rest;
      forall i | HasAt(r, Fence, i) && i >= 1
        ensures HasAt(rest, Fence, i - 1)
      {
        HasAtUnshift(s[0], rest, Fence, i);
      }
    }
  }

  /** A slice of text without the pattern has none either. */
  lemma SliceKeepsAbsent(s: string, pat: string, a: int, b: int)
    requires 0 <= a <= b <= |s| && !Contains(s, pat)
    ensures !Contains(s[a..b], pat)
  {
    forall i | HasAt(s[a..b], pat, i)
      ensures HasAt(s, pat, a + i)
    {
      var window := s[a..b][i..i + |pat|];
      forall k | 0 <= k < |pat| ensures s[a + i + k] == window[k] {
        assert window[k] == s[a..b][i + k];
      }
      assert s[a + i..a + i + |pat|] == window;
    }
  }

  /** Trimming text without the pattern leaves none. */
  lemma TrimKeepsAbsent(s: string, pat: string)
    requires !Contains(s, pat)
    ensures !Contains(Trim(s), pat)
  {
    TrimIsSlice(s);
    var k := |s| - |TrimStart(s)|;
    SliceKeepsAbsent(s, pat, k, k + |Trim(s)|);
  }

  /** Text without a fence has no "```json" either. */
  lemma NoJsonFenceWithoutFence(s: string)
    requires !Contains(s, Fence)
    ensures !Contains(s, JsonFence)
  {
    forall i | HasAt(s, JsonFence, i)
      ensures HasAt(s, Fence, i)
    {
      assert s[i..i + |Fence|] == s[i..i + |JsonFence|][..|Fence|];
    }
  }

  /** Text without a backtick has no "```json" and no "```". */
  lemma NoBacktickNoFence(s: string, pat: string)
    requires '`' !in s && pat != [] && pat[0] == '`'
    ensures !Contains(s, pat)
  {
  }

  /** The cleaned text holds no fence and has no whitespace at either end. */
  lemma CleanIsClean(text: string)
    ensures !Contains(Clean(text), Fence)
    ensures Trimmed(Clean(text))
  {
    var stripped := RemoveAll(RemoveAll(text, JsonFence), Fence);
    NoFenceLeft(RemoveAll(text, JsonFence));
    TrimKeepsAbsent(stripped, Fence);
    TrimIsSlice(stripped);
  }

  /** Cleaning twice is cleaning once. */
  lemma CleanIdempotent(text: string)
    ensures Clean(Clean(text)) == Clean(text)
  {
    var c := Clean(text);
    CleanIsClean(text);
    NoJsonFenceWithoutFence(c);
    RemoveAllAbsent(c, JsonFence);
    RemoveAllAbsent(c, Fence);
    TrimOfTrimmed(c);
  }

  /** Text without a backtick is only trimmed. */
  lemma CleanWithoutBackticks(text: string)
    requires '`' !in text
    ensures Clean(text) == Trim(text)
  {
    NoBacktickNoFence(text, JsonFence);
    RemoveAllAbsent(text, JsonFence);
    NoBacktickNoFence(text, Fence);
    RemoveAllAbsent(text, Fence);
  }

  /** A reply wrapped in a JSON code fence cleans to the bare text. */
  lemma CleanOfFencedJson(json: string)
    requires '`' !in json && Trimmed(json)
    ensures Clean(JsonFence + json + Fence) == json
  {
    var reply := JsonFence + json + Fence;
    assert reply[..|JsonFence|] == JsonFence && reply[|JsonFence|..] == json + Fence;
    RemoveAllPastPrefix(json, Fence, JsonFence);
    var once := RemoveAll(reply, JsonFence);
    assert once == json + Fence;
    RemoveAllPastPrefix(json, Fence, Fence);
    assert Fence[..|Fence|] == Fence && Fence[|Fence|..] == [];
    assert RemoveAll(once, Fence) == json + [] == json;
    TrimOfTrimmed(json);
  }

  /** What a successful submit writes to the `chatHistory` entry: the user's
      message as a single object, not an array. */
  function HeroEntry(input: string): (stored: Stored)
    ensures stored.StoredObject? && stored.message == Message(User, input)
  {
    StoredObject(Message(User, input))
  }

  /** The chat panel restores an empty transcript from what the landing page
      writes. */
  lemma HeroEntryRestoresEmpty(input: string)
    ensures Restore(HeroEntry(input)) == []
  {
  }

  /** The landing page's form. */
  class HeroForm {
    /** The `input` state: the text in the prompt field. */
    var input: string
    /** The `chatHistory` entry of browser storage. */
    var storage: Stored

    constructor (saved: Stored)
      ensures input == [] && storage == saved
    {
      input := [];
      storage := saved;
    }

    /** Typing in the field. */
    method SetInput(text: string)
      modifies this`input
      ensures input == text
    {
      input := text;
    }

    /** `handleSubmit`, with `reply` the model call's outcome and `parsesAsJson`
        standing for whether `JSON.parse` accepts a text. A blank field does
        nothing. Otherwise the field is cleared before the model call; a
        reply is cleaned, and when it parses, the original input is written
        to storage. A failed call or a reply that does not parse leaves
        storage alone. */
    method Submit(reply: ModelOutcome, parsesAsJson: string -> bool) returns (cleaned: Option<string>)
      modifies this
      ensures IsBlank(old(input)) ==> input == old(input) && storage == old(storage) && cleaned == None
      ensures !IsBlank(old(input)) ==>
        && input == []
        && (reply.Failed? ==> cleaned == None && storage == old(storage))
        && (reply.Replied? ==> cleaned == Some(Clean(reply.text)))
        && (reply.Replied? && parsesAsJson(Clean(reply.text)) ==> storage == HeroEntry(old(input)))
        && (reply.Replied? && !parsesAsJson(Clean(reply.text)) ==> storage == old(storage))
    {
      if IsBlank(input) {
        return None;
      }
      var submitted := input;
      input := [];
      match reply {
        case Failed =>
          cleaned := None;
        case Replied(text) =>
          var cleanText := Clean(text);
          cleaned := Some(cleanText);
          if parsesAsJson(cleanText) {
            storage := HeroEntry(submitted);
          }
      }
    }
  }

  /** A fenced JSON reply cleans to the bare JSON; the message written then
      restores as an empty transcript. */
  method HeroScenario(input: string, json: string) returns (cleaned: Option<string>, restored: seq<Message>)
    requires !IsBlank(input) && '`' !in json && Trimmed(json)
    ensures cleaned == Some(json)
    ensures restored == []
  {
    var form := new HeroForm(Absent);
    form.SetInput(input);
    var reply := JsonFence + json + Fence;
    CleanOfFencedJson(json);
    cleaned := form.Submit(Replied(reply), _ => true);
    restored := Restore(form.storage);
  }
}
