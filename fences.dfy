/** The response sanitiser shared by the research, scrape and CSV routes:
    before a model reply is parsed as JSON, every "```json" fence and then
    every "```" fence is deleted (each with one newline right after it, when
    there is one), and the result is trimmed.

    app/api/research/route.ts:253-256, app/api/scrape-competitor/route.ts:174-177,
    app/api/analyze-csv/route.ts:150-153. */
module Fences {
  import opened JsStrings

  const JsonFence: string := "```json"
  const Fence: string := "```"

  /** `s.replace(/<marker>\n?/g, '')` for a literal marker that begins with a
      backtick: the string is scanned left to right; at each position where
      the marker begins, the marker and one newline right after it are
      deleted and the scan resumes after them; every other character is
      kept. */
  function RemoveMarker(s: string, marker: string): (r: string)
    requires marker != [] && marker[0] == '`'
    ensures |r| <= |s|
    decreases |s|
  {
    if StartsWith(s, marker) then
      var rest := s[|marker|..];
      if rest != [] && rest[0] == '\n' then RemoveMarker(rest[1..], marker)
      else RemoveMarker(rest, marker)
    else if s == [] then []
    else [s[0]] + RemoveMarker(s[1..], marker)
  }

  /** `text.replace(/```json\n?/g, '').replace(/```\n?/g, '').trim()` */
  function StripFences(text: string): string {
    Trim(RemoveMarker(RemoveMarker(text, JsonFence), Fence))
  }

  predicate NoBackticks(s: string) {
    forall i :: 0 <= i < |s| ==> s[i] != '`'
  }

  /** Text without backticks in front is copied through untouched. */
  lemma {:induction false} PlainPrefixKept(u: string, v: string, marker: string)
    requires marker != [] && marker[0] == '`'
    requires NoBackticks(u)
    ensures RemoveMarker(u + v, marker) == u + RemoveMarker(v, marker)
  {
    if u == [] {
      assert u + v == v;
    } else {
      assert (u + v)[1..] == u[1..] + v;
      PlainPrefixKept(u[1..], v, marker);
    }
  }

  /** A reply with no backticks and no surrounding white space passes the
      sanitiser unchanged. */
  lemma PlainTextUnchanged(text: string)
    requires NoBackticks(text)
    requires text != [] ==> !IsSpace(text[0]) && !IsSpace(text[|text| - 1])
    ensures StripFences(text) == text
  {
    PlainPrefixKept(text, [], JsonFence);
    PlainPrefixKept(text, [], Fence);
    assert text + [] == text;
    TrimFixed(text);
  }

  /** After the second pass no "```" is left anywhere: a deletion never
      brings backticks together into a new fence, because a backtick kept
      right before one would have started an earlier match. */
  lemma {:induction false} NoFenceSurvives(s: string)
    ensures !Contains(RemoveMarker(s, Fence), Fence)
    decreases |s|
  {
    if StartsWith(s, Fence) {
      var rest := s[3..];
      if rest != [] && rest[0] == '\n' {
        NoFenceSurvives(rest[1..]);
      } else {
        NoFenceSurvives(rest);
      }
    } else if s != [] {
      var t := s[1..];
      NoFenceSurvives(t);
      var rt := RemoveMarker(t, Fence);
      var r := [s[0]] + rt;
      assert r[1..] == rt;
    }
  }

  /** Whatever the model replies, the text handed to the JSON parser holds
      no "```". */
  lemma StripFencesLeavesNoFence(text: string)
    ensures !Contains(StripFences(text), Fence)
  {
    NoFenceSurvives(RemoveMarker(text, JsonFence));
    TrimKeepsAbsence(RemoveMarker(RemoveMarker(text, JsonFence), Fence), Fence);
  }

  /** A reply wrapped in a "```json" fence is unwrapped to its trimmed body. */
  lemma StripJsonFencedReply(body: string)
    requires NoBackticks(body)
    ensures StripFences(JsonFence + "\n" + body + "\n" + Fence) == Trim(body)
  {
    var text := JsonFence + "\n" + body + "\n" + Fence;
    assert StartsWith(text, JsonFence);
    assert text[|JsonFence|..] == "\n" + (body + "\n" + Fence);
    assert RemoveMarker(text, JsonFence) == RemoveMarker(body + "\n" + Fence, JsonFence);
    PlainPrefixKept(body + "\n", Fence, JsonFence);
    assert body + "\n" + Fence == (body + "\n") + Fence;
    FenceKeptByJsonPass();
    PlainPrefixKept(body + "\n", Fence, Fence);
    FenceDeleted();
    assert RemoveMarker(RemoveMarker(text, JsonFence), Fence) == body + "\n";
    TrimDropsTrailingSpace(body, '\n');
  }

  /** A fence followed by anything but "json" is not a "```json" fence. */
  lemma FenceThenNotJson(tail: string)
    requires !StartsWith(tail, "json")
    ensures !StartsWith(Fence + tail, JsonFence)
  {
    var s := Fence + tail;
    if |JsonFence| <= |s| {
      assert JsonFence[3..] == "json";
      assert s[..|JsonFence|][3..] == tail[..4];
    }
  }

  /** The "```json" pass leaves a bare fence alone when it is not followed
      by "json" or by another backtick. */
  lemma BareFenceSurvivesJsonPass(tail: string)
    requires tail != [] && tail[0] != '`' && !StartsWith(tail, "json")
    ensures RemoveMarker(Fence + tail, JsonFence) == Fence + RemoveMarker(tail, JsonFence)
  {
    var s := Fence + tail;
    var s1 := s[1..];
    var s2 := s1[1..];
    var s3 := s2[1..];
    assert s3 == tail;
    assert s[3] == tail[0] && s1[2] == tail[0] && s2[1] == tail[0];
    assert JsonFence[1] == '`' && JsonFence[2] == '`';
    FenceThenNotJson(tail);
    assert !StartsWith(s1, JsonFence) by {
      if |JsonFence| <= |s1| { assert s1[..|JsonFence|][2] == s1[2]; }
    }
    assert !StartsWith(s2, JsonFence) by {
      if |JsonFence| <= |s2| { assert s2[..|JsonFence|][1] == s2[1]; }
    }
    assert RemoveMarker(s2, JsonFence) == [s2[0]] + RemoveMarker(tail, JsonFence);
    assert RemoveMarker(s1, JsonFence) == [s1[0]] + RemoveMarker(s2, JsonFence);
    assert RemoveMarker(s, JsonFence) == [s[0]] + RemoveMarker(s1, JsonFence);
    assert [s[0]] + [s1[0]] + [s2[0]] == Fence;
  }

  /** A lone fence is not a "```json" fence. */
  lemma FenceKeptByJsonPass()
    ensures RemoveMarker(Fence, JsonFence) == Fence
  {
    assert Fence[1..] == "``" && Fence[1..][1..] == "`" && Fence[1..][1..][1..] == "";
  }

  /** A lone fence is deleted by the second pass. */
  lemma FenceDeleted()
    ensures RemoveMarker(Fence, Fence) == []
  {
    assert Fence[|Fence|..] == [];
  }

  /** The "```json" pass keeps a bare-fenced reply whole. */
  lemma BareFencedReplyKeptByJsonPass(inner: string)
    requires NoBackticks(inner)
    ensures RemoveMarker(Fence + ("\n" + inner + Fence), JsonFence) == Fence + ("\n" + inner + Fence)
  {
    var front := "\n" + inner;
    assert NoBackticks(front) by {
      forall i | 0 <= i < |front| ensures front[i] != '`' {
        if i > 0 { assert front[i] == inner[i - 1]; }
      }
    }
    BareFenceSurvivesJsonPass(front + Fence);
    PlainPrefixKept(front, Fence, JsonFence);
    FenceKeptByJsonPass();
  }

  /** The same holds for a bare "```" fence. */
  lemma StripBareFencedReply(body: string)
    requires NoBackticks(body)
    ensures StripFences(Fence + "\n" + body + "\n" + Fence) == Trim(body)
  {
    var inner := body + "\n";
    var text := Fence + ("\n" + inner + Fence);
    assert Fence + "\n" + body + "\n" + Fence == text;
    assert NoBackticks(inner) by {
      forall i | 0 <= i < |inner| ensures inner[i] != '`' {
        if i < |body| { assert inner[i] == body[i]; }
      }
    }
    BareFencedReplyKeptByJsonPass(inner);
    assert StartsWith(text, Fence);
    assert text[3..] == "\n" + (inner + Fence);
    assert RemoveMarker(text, Fence) == RemoveMarker(inner + Fence, Fence);
    PlainPrefixKept(inner, Fence, Fence);
    FenceDeleted();
    assert inner + [] == inner;
    TrimDropsTrailingSpace(body, '\n');
  }
}
