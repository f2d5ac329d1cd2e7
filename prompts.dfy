/** The pure string work of the answering path in `AIService.getRAGAnswer`:
    serialising the conversation history, joining retrieved passages, the two
    prompt templates, and the clean-up that deletes every `**` from the
    model's answer. */
module Prompts {
  import opened JsStrings

  /** One entry of the chat history as the answering path reads it. */
  datatype Turn = Turn(sender: string, text: string)

  /** `${m.sender}: ${m.text}` */
  function HistoryLine(t: Turn): string
  {
    t.sender + ": " + t.text
  }

  function HistoryLines(history: seq<Turn>): (lines: seq<string>)
    ensures |lines| == |history|
    ensures forall i :: 0 <= i < |history| ==> lines[i] == HistoryLine(history[i])
  {
    seq(|history|, i requires 0 <= i < |history| => HistoryLine(history[i]))
  }

  /** `chatHistory.map(m => ...).join('\n')` */
  function HistoryString(history: seq<Turn>): string
  {
    Join(HistoryLines(history), "\n")
  }

  const ContextSeparator := "\n\n---\n\n"

  /** `relevantChunks.map(item => item.content).join('\n\n---\n\n')` */
  function ContextString(contents: seq<string>): string
  {
    Join(contents, ContextSeparator)
  }

  /** The prompt used when the search returns no passage: history and question only. */
  function UngroundedPrompt(history: seq<Turn>, query: string): string
  {
    "Conversation History:\n" + HistoryString(history) + "\n\nUser's Question:\n" + query + "\n\nAnswer:"
  }

  /** The ungrounded prompt opens with its history heading, closes with the
      answer cue, and holds the serialised history and the question. */
  lemma UngroundedPromptMentions(history: seq<Turn>, query: string)
    ensures StartsWith(UngroundedPrompt(history, query), "Conversation History:\n")
    ensures EndsWith(UngroundedPrompt(history, query), "\n\nAnswer:")
    ensures Contains(UngroundedPrompt(history, query), HistoryString(history))
    ensures Contains(UngroundedPrompt(history, query), query)
  {
    var head := "Conversation History:\n";
    var tail := "\n\nAnswer:";
    var p := UngroundedPrompt(history, query);
    assert p[..|head|] == head;
    assert p[|p| - |tail|..] == tail;
    assert p == head + HistoryString(history) + ("\n\nUser's Question:\n" + query + tail);
    ContainsMiddle(head, HistoryString(history), "\n\nUser's Question:\n" + query + tail);
    ContainsMiddle(head + HistoryString(history) + "\n\nUser's Question:\n", query, tail);
  }

  /** The heading that marks a prompt as grounded in the document. */
  const ContextMarker := "DOCUMENT CONTEXT"

  /** The instructions that open the grounded prompt, up to where the
      retrieved passages are spliced in. */
  const GroundedInstructions :=
    "\n" +
    "      You are an expert AI assistant specialized in document analysis. Your primary goal is to provide accurate, relevant, and concise answers based exclusively on the provided document context.\n" +
    "\n" +
    "      **CRITICAL RULES:**\n" +
    "      1.  **Strictly Grounded:** Base your entire answer on the \"DOCUMENT CONTEXT\" provided below. Do NOT use any external knowledge or information you were trained on.\n" +
    "      2.  **No Assumptions:** If the answer is not explicitly found in the context, you MUST state: \"I could not find the answer to that question in the provided document.\" Do not try to infer or guess.\n" +
    "      3.  **Cite When Possible:** When you provide an answer, quote the most relevant sentence or phrase from the context that supports your answer.\n" +
    "      4.  **Use Conversation History for Intent:** The \"CONVERSATION HISTORY\" is for understanding the user's line of questioning and intent. The factual basis for your answer must still come from the \"DOCUMENT CONTEXT\".\n" +
    "      5.  **Plain Text Only:** Your final output must be plain text. Do not use Markdown formatting (e.g., do not use asterisks for bolding or lists, or hashes for headings).\n" +
    "\n" +
    "\n" +
    "      ---\n" +
    "\n" +
    "      "

  /** The heading under which the passages are spliced in. */
  const ContextHeading := "**" + ContextMarker + ":**\n      "

  const GroundedPreamble := GroundedInstructions + ContextHeading

  const HistoryHeading := "\n\n      ---\n\n      **CONVERSATION HISTORY:**\n      "
  const QuestionHeading := "\n\n      ---\n\n      **USER'S QUESTION:**\n      "
  const AnswerHeading := "\n\n      ---\n\n      **EXPERT ANSWER:**\n    "

  /** The prompt used when at least one passage matched. */
  function GroundedPrompt(contents: seq<string>, history: seq<Turn>, query: string): string
  {
    GroundedPreamble + ContextString(contents) + HistoryHeading + HistoryString(history) +
    QuestionHeading + query + AnswerHeading
  }

  /** A text assembled from seven pieces opens with the first and closes with the last. */
  lemma Framed(a: string, b: string, c: string, d: string, e: string, f: string, g: string)
    ensures StartsWith(a + b + c + d + e + f + g, a) && EndsWith(a + b + c + d + e + f + g, g)
  {
  }

  // ---------------------------------------------------------------------
  // The grounded prompt carries every piece it is built from.

  lemma ContainsMiddle(pre: string, mid: string, post: string)
    ensures Contains(pre + mid + post, mid)
  {
    var s := pre + mid + post;
    assert s[|pre|..|pre| + |mid|] == mid;
    assert OccursAt(s, mid, |pre|);
  }

  lemma ContainsTransitive(s: string, t: string, w: string)
    requires Contains(s, t) && Contains(t, w)
    ensures Contains(s, w)
  {
    var i :| 0 <= i <= |s| - |t| && OccursAt(s, t, i);
    var j :| 0 <= j <= |t| - |w| && OccursAt(t, w, j);
    forall k | j <= k < j + |w|
      ensures s[i + k] == t[k]
    {
      assert t[k] == s[i..i + |t|][k];
    }
    assert s[i + j..i + j + |w|] == t[j..j + |w|];
    assert OccursAt(s, w, i + j);
  }

  /** The shape of the grounded template, for any fixed texts around the
      four slots. */
  lemma TemplateMentions(instr: string, marker: string, c: string, hh: string, h: string,
                         qh: string, q: string, ah: string)
    ensures var p := instr + ("**" + marker + ":**\n      ") + c + hh + h + qh + q + ah;
            Contains(p, marker) && Contains(p, c) && Contains(p, h) && Contains(p, q)
  {
    var head := "**" + marker + ":**\n      ";
    var p := instr + head + c + hh + h + qh + q + ah;
    assert p == instr + "**" + marker + (":**\n      " + c + hh + h + qh + q + ah);
    ContainsMiddle(instr + "**", marker, ":**\n      " + c + hh + h + qh + q + ah);
    assert p == instr + head + c + (hh + h + qh + q + ah);
    ContainsMiddle(instr + head, c, hh + h + qh + q + ah);
    assert p == instr + head + c + hh + h + (qh + q + ah);
    ContainsMiddle(instr + head + c + hh, h, qh + q + ah);
    ContainsMiddle(instr + head + c + hh + h + qh, q, ah);
  }

  /** The grounded prompt opens with its instructions and the context
      heading, closes with the answer heading, and holds the document-context
      heading, the joined passages, the serialised history and the question. */
  lemma GroundedPromptMentions(contents: seq<string>, history: seq<Turn>, query: string)
    ensures StartsWith(GroundedPrompt(contents, history, query), GroundedPreamble)
    ensures EndsWith(GroundedPrompt(contents, history, query), AnswerHeading)
    ensures Contains(GroundedPrompt(contents, history, query), ContextMarker)
    ensures Contains(GroundedPrompt(contents, history, query), ContextString(contents))
    ensures Contains(GroundedPrompt(contents, history, query), HistoryString(history))
    ensures Contains(GroundedPrompt(contents, history, query), query)
  {
    Framed(GroundedPreamble, ContextString(contents), HistoryHeading, HistoryString(history),
           QuestionHeading, query, AnswerHeading);
    TemplateMentions(GroundedInstructions, ContextMarker, ContextString(contents), HistoryHeading,
                     HistoryString(history), QuestionHeading, query, AnswerHeading);
  }

  /** Every retrieved passage appears in the grounded prompt. */
  lemma GroundedPromptMentionsEachMatch(contents: seq<string>, history: seq<Turn>, query: string, k: nat)
    requires k < |contents|
    ensures Contains(GroundedPrompt(contents, history, query), contents[k])
  {
    GroundedPromptMentions(contents, history, query);
    JoinContainsEach(contents, ContextSeparator, k);
    ContainsTransitive(GroundedPrompt(contents, history, query), ContextString(contents), contents[k]);
  }

  // ---------------------------------------------------------------------
  // The ungrounded prompt never introduces the document-context heading.

  lemma HistoryLineOmits(t: Turn, w: string)
    requires |w| > 0 && w[0] != ' ' && ':' !in w
    requires !Contains(t.sender, w) && !Contains(t.text, w)
    ensures !Contains(HistoryLine(t), w)
  {
    NotContainsWithoutFirstChar(":", w);
    NotContainsConcat(t.sender, ":", w);
    NotContainsCons(' ', t.text, w);
    NotContainsConcat(t.sender + ":", [' '] + t.text, w);
    assert HistoryLine(t) == (t.sender + ":") + ([' '] + t.text);
  }

  /** When neither the question nor any history entry contains the heading
      "DOCUMENT CONTEXT", the ungrounded prompt does not contain it either:
      none of its fixed text does, and its joints cannot create it. */
  lemma UngroundedPromptOmitsContextMarker(history: seq<Turn>, query: string)
    requires !Contains(query, ContextMarker)
    requires forall i :: 0 <= i < |history| ==>
               !Contains(history[i].sender, ContextMarker) && !Contains(history[i].text, ContextMarker)
    ensures !Contains(UngroundedPrompt(history, query), ContextMarker)
  {
    var w := ContextMarker;
    var lines := HistoryLines(history);
    forall i | 0 <= i < |lines|
      ensures !Contains(lines[i], w)
    {
      HistoryLineOmits(history[i], w);
    }
    NotContainsWithoutFirstChar("\n", w);
    NotContainsJoin(lines, "\n", w);
    var h := HistoryString(history);
    var p1, p2, p3 := "Conversation History:\n", "\n\nUser's Question:\n", "\n\nAnswer:";
    NotContainsWithoutFirstChar(p1, w);
    NotContainsWithoutFirstChar(p2, w);
    NotContainsWithoutFirstChar(p3, w);
    NotContainsConcat(query, p3, w);
    NotContainsConcat(p2, query + p3, w);
    NotContainsConcat(h, p2 + (query + p3), w);
    NotContainsConcat(p1, h + (p2 + (query + p3)), w);
    assert UngroundedPrompt(history, query) == p1 + (h + (p2 + (query + p3)));
  }

  // ---------------------------------------------------------------------
  // Serialised history can be split back into its lines.

  /** `s.split(c)` for a one-character separator. */
  function Split(s: string, c: char): (parts: seq<string>)
    ensures |parts| > 0
  {
    if |s| == 0 then [""]
    else if s[0] == c then [""] + Split(s[1..], c)
    else var rest := Split(s[1..], c); [[s[0]] + rest[0]] + rest[1..]
  }

  lemma {:induction false} SplitWithoutSeparator(a: string, c: char)
    requires c !in a
    ensures Split(a, c) == [a]
  {
    if |a| > 0 {
      SplitWithoutSeparator(a[1..], c);
      assert [a[0]] + a[1..] == a;
    }
  }

  lemma {:induction false} SplitAtFirstSeparator(a: string, c: char, b: string)
    requires c !in a
    ensures Split(a + [c] + b, c) == [a] + Split(b, c)
  {
    if |a| == 0 {
      assert a + [c] + b == [c] + b;
      assert ([c] + b)[1..] == b;
    } else {
      SplitAtFirstSeparator(a[1..], c, b);
      assert (a + [c] + b)[1..] == a[1..] + [c] + b;
      assert [a[0]] + a[1..] == a;
    }
  }

  /** Splitting a `join` on its one-character separator gives the parts back
      when no part contains that character. */
  lemma {:induction false} SplitJoin(xs: seq<string>, c: char)
    requires |xs| > 0
    requires forall k :: 0 <= k < |xs| ==> c !in xs[k]
    ensures Split(Join(xs, [c]), c) == xs
  {
    if |xs| == 1 {
      SplitWithoutSeparator(xs[0], c);
    } else {
      SplitJoin(xs[1..], c);
      SplitAtFirstSeparator(xs[0], c, Join(xs[1..], [c]));
      assert [xs[0]] + xs[1..] == xs;
    }
  }

  /** The serialised history keeps one line per turn, in order: splitting it
      at line breaks recovers `sender: text` for every turn, provided no
      sender or text itself contains a line break. */
  lemma HistoryStringSplitsIntoTurns(history: seq<Turn>)
    requires |history| > 0
    requires forall i :: 0 <= i < |history| ==> '\n' !in history[i].sender && '\n' !in history[i].text
    ensures Split(HistoryString(history), '\n') == HistoryLines(history)
  {
    var lines := HistoryLines(history);
    forall k | 0 <= k < |lines|
      ensures '\n' !in lines[k]
    {
      assert lines[k] == history[k].sender + ": " + history[k].text;
    }
    assert "\n" == ['\n'];
    SplitJoin(lines, '\n');
  }

  // ---------------------------------------------------------------------
  // `rawText.replace(/\*\*/g, '')`

  /** Deletes every `**`, scanning left to right without overlaps, as a
      global regular-expression replace does. */
  function StripDoubleStars(s: string): (r: string)
    ensures |r| <= |s|
    ensures (|s| - |r|) % 2 == 0
  {
    if |s| == 0 then ""
    else if |s| >= 2 && s[0] == '*' && s[1] == '*' then StripDoubleStars(s[2..])
    else [s[0]] + StripDoubleStars(s[1..])
  }

  /** No two adjacent asterisks. */
  predicate NoDoubleStar(s: string)
  {
    forall i :: 0 <= i < |s| - 1 ==> !(s[i] == '*' && s[i + 1] == '*')
  }

  lemma NoDoubleStarNotContains(s: string)
    requires NoDoubleStar(s)
    ensures !Contains(s, "**")
  {
    forall i | 0 <= i <= |s| - 2
      ensures !OccursAt(s, "**", i)
    {
      assert s[i..i + 2][0] == s[i] && s[i..i + 2][1] == s[i + 1];
    }
  }

  lemma {:induction false} StripLeavesNoDoubleStar(s: string)
    ensures NoDoubleStar(StripDoubleStars(s))
  {
    if |s| == 0 {
    } else if |s| >= 2 && s[0] == '*' && s[1] == '*' {
      StripLeavesNoDoubleStar(s[2..]);
    } else {
      StripLeavesNoDoubleStar(s[1..]);
      var t := s[1..];
      if |t| > 0 {
        // t starts with a non-asterisk when s starts with one, and that
        // character survives at the front of the stripped tail
        assert s[0] == '*' ==> t[0] != '*';
        assert t[0] != '*' ==> StripDoubleStars(t) == [t[0]] + StripDoubleStars(t[1..]);
      }
    }
  }

  /** The cleaned answer contains no `**`. */
  lemma CleanedAnswerHasNoDoubleStar(s: string)
    ensures !Contains(StripDoubleStars(s), "**")
  {
    StripLeavesNoDoubleStar(s);
    NoDoubleStarNotContains(StripDoubleStars(s));
  }

  lemma {:induction false} StripKeepsTextWithoutDoubleStar(t: string)
    requires NoDoubleStar(t)
    ensures StripDoubleStars(t) == t
  {
    if |t| > 0 {
      assert !(|t| >= 2 && t[0] == '*' && t[1] == '*');
      StripKeepsTextWithoutDoubleStar(t[1..]);
      assert [t[0]] + t[1..] == t;
    }
  }

  /** Cleaning twice is cleaning once. */
  lemma StripIsIdempotent(s: string)
    ensures StripDoubleStars(StripDoubleStars(s)) == StripDoubleStars(s)
  {
  }

  function Stars(k: nat): (r: string)
    ensures |r| == k && forall i :: 0 <= i < k ==> r[i] == '*'
  {
    if k == 0 then "" else "*" + Stars(k - 1)
  }

  /** A maximal run of `k` asterisks becomes `k % 2` asterisks. */
  lemma {:induction false} StripRun(k: nat, t: string)
    requires |t| == 0 || t[0] != '*'
    ensures StripDoubleStars(Stars(k) + t) == Stars(k % 2) + StripDoubleStars(t)
  {
    var s := Stars(k) + t;
    if k >= 2 {
      assert s[0] == '*' && s[1] == '*';
      assert s[2..] == Stars(k - 2) + t;
      StripRun(k - 2, t);
      assert k % 2 == (k - 2) % 2;
    } else if k == 1 {
      assert s[0] == '*' && s[1..] == t;
      assert StripDoubleStars(s) == [s[0]] + StripDoubleStars(t);
      assert Stars(1) == ['*'];
    } else {
      assert s == t;
      assert Stars(0) == [];
    }
  }

  /** The text with every asterisk taken out. */
  function WithoutStars(s: string): (r: string)
    ensures forall i :: 0 <= i < |r| ==> r[i] != '*'
  {
    if |s| == 0 then ""
    else if s[0] == '*' then WithoutStars(s[1..])
    else [s[0]] + WithoutStars(s[1..])
  }

  /** The clean-up deletes only asterisks: every other character survives, in order. */
  lemma {:induction false} StripDeletesOnlyStars(s: string)
    ensures WithoutStars(StripDoubleStars(s)) == WithoutStars(s)
  {
    if |s| == 0 {
    } else if |s| >= 2 && s[0] == '*' && s[1] == '*' {
      StripDeletesOnlyStars(s[2..]);
      assert s[1..][1..] == s[2..];
    } else {
      StripDeletesOnlyStars(s[1..]);
      var r := [s[0]] + StripDoubleStars(s[1..]);
      assert r[1..] == StripDoubleStars(s[1..]);
    }
  }
}
