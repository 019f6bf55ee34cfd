/** The framing of agent output on a container's stdout: what a buffer contains, read in one go. */
module StreamModel {
  import opened Options
  import opened Text

  datatype Markers = Markers(start: string, end: string)

  const OUTPUT_MARKERS := Markers("---NANOCLAW_OUTPUT_START---", "---NANOCLAW_OUTPUT_END---")

  /** What the framing needs of its markers. */
  ghost predicate WellChosen(m: Markers) {
    && NonEmpty(m)
    && '\n' !in m.start && '\n' !in m.end
    && !Includes(m.start, m.end)
  }

  predicate NonEmpty(m: Markers) {
    m.start != "" && m.end != ""
  }

  lemma StartMarkerText()
    ensures var start := OUTPUT_MARKERS.start;
            |start| == 27 && start[19] == 'S' && start[3] == 'N' && '\n' !in start
  {}

  lemma EndMarkerText()
    ensures var end := OUTPUT_MARKERS.end;
            |end| == 25 && end[19] == 'E' && end[2] == '-' && end[1] == '-' && '\n' !in end
  {}

  /** There are three places where an end marker could lie in a start marker; it does not. */
  lemma OutputMarkersWellChosen()
    ensures WellChosen(OUTPUT_MARKERS)
  {
    StartMarkerText();
    EndMarkerText();
    var (start, end) := (OUTPUT_MARKERS.start, OUTPUT_MARKERS.end);
    hide OUTPUT_MARKERS;
    forall k | 0 <= k <= 2 ensures !OccursAt(start, end, k) {
      var offset := if k == 0 then 19 else if k == 1 then 2 else 1;
      assert start[k..k + 25][offset] == start[k + offset];
    }
  }

  /** The first complete marker pair: its trimmed payload and what follows it. The end marker is looked for from
      the start marker on, so the two may overlap; the payload is then empty. */
  function FirstPair(m: Markers, buffer: string): (r: Option<(string, string)>)
    requires NonEmpty(m)
    ensures r.Some? ==> |r.value.1| < |buffer|
  {
    var startIdx := IndexOf(buffer, m.start, 0);
    if startIdx == -1 then None
    else
      var endIdx := IndexOf(buffer, m.end, startIdx);
      if endIdx == -1 then None
      else Some((Trim(Slice(buffer, startIdx + |m.start|, endIdx)), buffer[endIdx + |m.end|..]))
  }

  function Payloads(m: Markers, buffer: string): seq<string>
    requires NonEmpty(m)
    decreases |buffer|
  {
    match FirstPair(m, buffer)
    case None => []
    case Some((payload, rest)) => [payload] + Payloads(m, rest)
  }

  function Leftover(m: Markers, buffer: string): string
    requires NonEmpty(m)
    decreases |buffer|
  {
    match FirstPair(m, buffer)
    case None => buffer
    case Some((payload, rest)) => Leftover(m, rest)
  }

  /** What JSON.parse makes of a payload. */
  datatype Output = Output(newSessionId: string, body: string)

  function Parsed(parse: string -> Option<Output>, payloads: seq<string>): seq<Output> {
    if payloads == [] then []
    else (match parse(payloads[0]) case None => [] case Some(o) => [o]) + Parsed(parse, payloads[1..])
  }

  /** The last session id that an output set, or "". */
  function LastSession(outputs: seq<Output>): string {
    if outputs == [] then ""
    else
      var last := outputs[|outputs| - 1].newSessionId;
      if last != "" then last else LastSession(outputs[..|outputs| - 1])
  }

  // ------------------------------------------------------------------ chunks

  function Concat(chunks: seq<string>): string {
    if chunks == [] then "" else chunks[0] + Concat(chunks[1..])
  }

  /** Payloads and leftover when the chunks arrive one by one after `buffer`, each being drained on arrival. */
  function Feed(m: Markers, buffer: string, chunks: seq<string>): (seq<string>, string)
    requires NonEmpty(m)
    decreases |chunks|
  {
    if chunks == [] then ([], buffer)
    else
      var now := buffer + chunks[0];
      var (later, rest) := Feed(m, Leftover(m, now), chunks[1..]);
      (Payloads(m, now) + later, rest)
  }

  /** An occurrence that fits in s is one in s + more, and the other way round. */
  lemma OccursInPrefix(s: string, more: string, pat: string, i: nat)
    requires i + |pat| <= |s|
    ensures OccursAt(s + more, pat, i) <==> OccursAt(s, pat, i)
  {}

  lemma IndexOfInPrefix(s: string, more: string, pat: string, from: nat)
    requires IndexOf(s, pat, from) >= 0
    ensures IndexOf(s + more, pat, from) == IndexOf(s, pat, from)
  {
    var i := IndexOf(s, pat, from);
    forall k | from <= k < i ensures !OccursAt(s + more, pat, k) {
      OccursInPrefix(s, more, pat, k);
    }
    OccursInPrefix(s, more, pat, i);
    IndexOfIs(s + more, pat, from, i);
  }

  /** A complete pair stays the first one, whatever arrives later. */
  lemma PairStable(m: Markers, buffer: string, more: string)
    requires NonEmpty(m) && FirstPair(m, buffer).Some?
    ensures var (payload, rest) := FirstPair(m, buffer).value;
            FirstPair(m, buffer + more) == Some((payload, rest + more))
  {
    hide IndexOf, Trim;
    var startIdx := IndexOf(buffer, m.start, 0);
    var endIdx := IndexOf(buffer, m.end, startIdx);
    IndexOfInPrefix(buffer, more, m.start, 0);
    IndexOfInPrefix(buffer, more, m.end, startIdx);
    assert Slice(buffer + more, startIdx + |m.start|, endIdx) == Slice(buffer, startIdx + |m.start|, endIdx);
    assert (buffer + more)[endIdx + |m.end|..] == buffer[endIdx + |m.end|..] + more;
  }

  /** Draining early makes no difference. */
  lemma {:induction false} DrainEarly(m: Markers, buffer: string, more: string)
    requires NonEmpty(m)
    ensures Payloads(m, buffer + more) == Payloads(m, buffer) + Payloads(m, Leftover(m, buffer) + more)
    ensures Leftover(m, buffer + more) == Leftover(m, Leftover(m, buffer) + more)
    decreases |buffer|
  {
    hide FirstPair;
    match FirstPair(m, buffer) {
      case None =>
        assert Payloads(m, buffer) == [] && Leftover(m, buffer) == buffer;
      case Some((payload, rest)) =>
        PairStable(m, buffer, more);
        DrainEarly(m, rest, more);
    }
  }

  predicate Drained(m: Markers, buffer: string)
    requires NonEmpty(m)
  {
    FirstPair(m, buffer).None?
  }

  lemma {:induction false} LeftoverIsDrained(m: Markers, buffer: string)
    requires NonEmpty(m)
    ensures Drained(m, Leftover(m, buffer))
    decreases |buffer|
  {
    hide FirstPair;
    if FirstPair(m, buffer).None? {
    } else {
      LeftoverIsDrained(m, FirstPair(m, buffer).value.1);
    }
  }

  /** However the output is split into chunks, the incremental parser yields the payloads and the leftover of
      the whole text. */
  lemma {:induction false} ChunkingIrrelevant(m: Markers, buffer: string, chunks: seq<string>)
    requires NonEmpty(m) && Drained(m, buffer)
    ensures Feed(m, buffer, chunks) == (Payloads(m, buffer + Concat(chunks)), Leftover(m, buffer + Concat(chunks)))
    decreases |chunks|
  {
    hide FirstPair;
    if chunks == [] {
      assert buffer + Concat(chunks) == buffer;
    } else {
      var now := buffer + chunks[0];
      LeftoverIsDrained(m, now);
      ChunkingIrrelevant(m, Leftover(m, now), chunks[1..]);
      DrainEarly(m, now, Concat(chunks[1..]));
      assert now + Concat(chunks[1..]) == buffer + Concat(chunks);
    }
  }

  /** Two ways of cutting the same text, one result. */
  lemma SameTextSameResult(m: Markers, chunks: seq<string>, others: seq<string>)
    requires NonEmpty(m) && Concat(chunks) == Concat(others)
    ensures Feed(m, "", chunks) == Feed(m, "", others)
  {
    assert Drained(m, "");
    ChunkingIrrelevant(m, "", chunks);
    ChunkingIrrelevant(m, "", others);
  }

  // ------------------------------------------------------------------ framed payloads come back

  /** What the agent runner writes for one payload. */
  function Frame(m: Markers, json: string): string {
    m.start + "\n" + json + "\n" + m.end + "\n"
  }

  function Encode(m: Markers, jsons: seq<string>): string {
    if jsons == [] then "" else Frame(m, jsons[0]) + Encode(m, jsons[1..])
  }

  /** Starts and ends with something other than whitespace, as serialized objects do. */
  predicate Compact(json: string) {
    json != "" && !IsSpace(json[0]) && !IsSpace(json[|json| - 1])
  }

  /** The end marker contains no newline, so no occurrence covers one. */
  lemma NoneAcrossNewline(pat: string, s: string, n: nat, k: int)
    requires '\n' !in pat && n < |s| && s[n] == '\n' && k <= n < k + |pat|
    ensures !OccursAt(s, pat, k)
  {}

  /** An occurrence in s that lies within s[at..at + |part|] == part is one in part. */
  lemma OccursWithin(s: string, part: string, at: nat, pat: string, k: int)
    requires OccursAt(s, part, at) && at <= k && k + |pat| <= at + |part|
    ensures OccursAt(s, pat, k) <==> OccursAt(part, pat, k - at)
  {
    assert s[at..at + |part|] == part;
    var cut := part[k - at..k - at + |pat|];
    assert forall i :: 0 <= i < |pat| ==> cut[i] == part[k - at + i] == s[k + i];
    assert s[k..k + |pat|] == cut;
  }

  /** In a buffer with a frame at `s`, where the first end marker from there on is. */
  lemma EndFound(m: Markers, buffer: string, s: nat, json: string)
    requires WellChosen(m)
    requires var p := s + |m.start| + 1;
             && OccursAt(buffer, m.start, s) && OccursAt(buffer, json, p) && OccursAt(buffer, m.end, p + |json| + 1)
             && buffer[p - 1] == '\n' && buffer[p + |json|] == '\n'
    ensures var p := s + |m.start| + 1;
            var e := IndexOf(buffer, m.end, s);
            if Includes(json, m.end) then p <= e < p + |json| else e == p + |json| + 1
  {
    var p := s + |m.start| + 1;
    forall k | s <= k < p ensures !OccursAt(buffer, m.end, k) {
      if k + |m.end| <= s + |m.start| {
        OccursWithin(buffer, m.start, s, m.end, k);
      } else {
        NoneAcrossNewline(m.end, buffer, p - 1, k);
      }
    }
    forall k | p <= k <= p + |json| ensures OccursAt(buffer, m.end, k) <==> OccursAt(json, m.end, k - p) {
      if k + |m.end| <= p + |json| {
        OccursWithin(buffer, json, p, m.end, k);
      } else {
        NoneAcrossNewline(m.end, buffer, p + |json|, k);
      }
    }
    if Includes(json, m.end) {
      var i :| 0 <= i <= |json| && OccursAt(json, m.end, i);
      assert OccursAt(buffer, m.end, p + i);
    } else {
      IndexOfIs(buffer, m.end, s, p + |json| + 1);
    }
  }

  lemma StartFound(m: Markers, lead: string, buffer: string)
    requires WellChosen(m) && (lead == "" || lead == "\n")
    requires OccursAt(buffer, lead, 0) && OccursAt(buffer, m.start, |lead|)
    ensures IndexOf(buffer, m.start, 0) == |lead|
  {
    if lead == "\n" {
      assert buffer[0] == buffer[0..1][0];
      NoneAcrossNewline(m.start, buffer, 0, 0);
    }
    IndexOfIs(buffer, m.start, 0, |lead|);
  }

  lemma TrimCompact(json: string)
    requires Compact(json)
    ensures Trim("\n" + json + "\n") == json
  {
    assert ("\n" + json + "\n")[1..] == json + "\n";
    assert (json + "\n")[0] == json[0] && (json + "\n")[|json|] == '\n';
    assert TrimStart("\n" + json + "\n") == TrimStart(json + "\n") == json + "\n";
    assert (json + "\n")[..|json|] == json;
    assert TrimEnd(json + "\n") == TrimEnd(json) == json;
  }

  lemma TrimCut(json: string, n: nat)
    requires n < |json|
    ensures |Trim("\n" + json[..n])| < |json|
  {}

  /** Where the pieces of a framed text lie. */
  lemma FrameLayout(m: Markers, lead: string, json: string, tail: string)
    ensures var buffer := lead + Frame(m, json) + tail;
            var p := |lead| + |m.start| + 1;
            && OccursAt(buffer, lead, 0) && OccursAt(buffer, m.start, |lead|) && OccursAt(buffer, json, p)
            && OccursAt(buffer, m.end, p + |json| + 1)
            && buffer[p - 1] == '\n' && buffer[p + |json|] == '\n'
            && buffer[p + |json| + 1 + |m.end|..] == "\n" + tail
            && |buffer| == p + |json| + |m.end| + 2 + |tail|
  {}

  /** The slice between the markers, when the first end marker is at `e`. */
  lemma FrameSlice(buffer: string, lo: nat, json: string, e: nat)
    requires lo + |json| + 1 < |buffer| && buffer[lo] == '\n' && buffer[lo + 1 + |json|] == '\n'
    requires OccursAt(buffer, json, lo + 1) && Compact(json) && lo < e <= lo + |json| + 2
    ensures e == lo + |json| + 2 ==> Trim(Slice(buffer, lo, e)) == json
    ensures e <= lo + |json| ==> |Trim(Slice(buffer, lo, e))| < |json|
  {
    hide Trim;
    assert buffer[lo + 1..lo + 1 + |json|] == json;
    if e == lo + |json| + 2 {
      assert buffer[lo..e] == "\n" + json + "\n";
      TrimCompact(json);
    } else if e <= lo + |json| {
      assert buffer[lo..e] == "\n" + json[..e - lo - 1];
      TrimCut(json, e - lo - 1);
    }
  }

  /** A frame at the head of the buffer, after the newline that the frame before left, comes out whole if and
      only if its payload does not contain the end marker; if it does, the payload comes out cut short. */
  lemma FrameComesOut(m: Markers, lead: string, json: string, tail: string)
    requires WellChosen(m) && (lead == "" || lead == "\n") && Compact(json)
    ensures var r := FirstPair(m, lead + Frame(m, json) + tail);
            && r.Some?
            && (!Includes(json, m.end) ==> r.value == (json, "\n" + tail))
            && (Includes(json, m.end) ==> |r.value.0| < |json|)
  {
    hide Frame, Includes, IndexOf, Trim, Compact, OccursAt, Slice, WellChosen;
    var buffer := lead + Frame(m, json) + tail;
    FrameLayout(m, lead, json, tail);
    StartFound(m, lead, buffer);
    EndFound(m, buffer, |lead|, json);
    FrameSlice(buffer, |lead| + |m.start|, json, IndexOf(buffer, m.end, |lead|));
  }

  lemma NothingAlone(m: Markers, lead: string)
    requires WellChosen(m) && (lead == "" || lead == "\n")
    ensures Payloads(m, lead) == []
  {
    if lead == "\n" && |m.start| == 1 {
      assert lead[0..1][0] == '\n' != m.start[0];
    }
  }

  /** For compact payloads, the frames parse back to exactly the payloads written if and only if none contains the
      end marker. */
  lemma {:induction false} FramesRoundTrip(m: Markers, lead: string, jsons: seq<string>)
    requires WellChosen(m) && (lead == "" || lead == "\n")
    requires forall j :: j in jsons ==> Compact(j)
    ensures Payloads(m, lead + Encode(m, jsons)) == jsons <==> forall j :: j in jsons ==> !Includes(j, m.end)
    decreases |jsons|
  {
    hide FirstPair, Includes, Frame, Compact;
    if jsons == [] {
      NothingAlone(m, lead);
      assert lead + Encode(m, jsons) == lead;
    } else {
      var json, tail := jsons[0], Encode(m, jsons[1..]);
      assert lead + Encode(m, jsons) == lead + Frame(m, json) + tail;
      FrameComesOut(m, lead, json, tail);
      var (payload, rest) := FirstPair(m, lead + Encode(m, jsons)).value;
      assert Payloads(m, lead + Encode(m, jsons)) == [payload] + Payloads(m, rest);
      assert jsons == [json] + jsons[1..];
      if Includes(json, m.end) {
        assert json in jsons && payload != json;
      } else {
        FramesRoundTrip(m, "\n", jsons[1..]);
        assert forall j :: j in jsons <==> j == json || j in jsons[1..];
      }
    }
  }

  /** A JSON string that is the end marker in quotes comes out cut short. */
  lemma EndMarkerCutsPayload(json: string)
    requires json == "\"" + OUTPUT_MARKERS.end + "\""
    ensures var got := Payloads(OUTPUT_MARKERS, Encode(OUTPUT_MARKERS, [json]));
            got != [json] && got != [] && |got[0]| < |json|
  {
    var m := OUTPUT_MARKERS;
    OutputMarkersWellChosen();
    EndMarkerText();
    assert json[1..26] == m.end;
    assert OccursAt(json, m.end, 1);
    assert json[0] == '\"' && json[26] == '\"';
    FrameComesOut(m, "", json, "");
    hide OUTPUT_MARKERS, Frame, FirstPair, Trim;
    assert "" + Frame(m, json) + "" == Encode(m, [json]);
  }

  /** The session is that of the last output that names one. */
  lemma {:induction false} LastSessionIs(outputs: seq<Output>)
    ensures var id := LastSession(outputs);
            if id == "" then forall i :: 0 <= i < |outputs| ==> outputs[i].newSessionId == ""
            else exists i :: 0 <= i < |outputs| && outputs[i].newSessionId == id
                             && forall j :: i < j < |outputs| ==> outputs[j].newSessionId == ""
  {
    if outputs == [] {
    } else {
      var n := |outputs| - 1;
      LastSessionIs(outputs[..n]);
      if outputs[n].newSessionId == "" && LastSession(outputs) != "" {
        var i :| 0 <= i < n && outputs[..n][i].newSessionId == LastSession(outputs)
                 && forall j :: i < j < n ==> outputs[..n][j].newSessionId == "";
        assert outputs[i] == outputs[..n][i];
        assert forall j :: i < j < n ==> outputs[j] == outputs[..n][j];
      }
    }
  }
}
