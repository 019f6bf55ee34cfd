/** The stdout handler of a running container: it accumulates the text for the log and delivers the framed outputs
    as they become complete. What it has delivered after any chunks depends on their concatenation only. */
module ContainerRunner {
  import opened Options
  import opened Text
  import opened StreamModel

  lemma {:induction false} ParsedAppend(parse: string -> Option<Output>, payloads: seq<string>, payload: string)
    ensures Parsed(parse, payloads + [payload])
         == Parsed(parse, payloads) + (match parse(payload) case None => [] case Some(o) => [o])
  {
    if payloads == [] {
      assert payloads + [payload] == [payload];
    } else {
      ParsedAppend(parse, payloads[1..], payload);
      assert (payloads + [payload])[1..] == payloads[1..] + [payload];
    }
  }

  lemma LastSessionAppend(outputs: seq<Output>, o: Output)
    ensures LastSession(outputs + [o]) == if o.newSessionId != "" then o.newSessionId else LastSession(outputs)
  {}

  /** One payload off the front of the buffer, onto the end of those already taken. */
  lemma TakePayload(m: Markers, buffer: string, taken: seq<string>, all: seq<string>)
    requires NonEmpty(m) && taken + Payloads(m, buffer) == all
    ensures match FirstPair(m, buffer)
            case None => all == taken && Leftover(m, buffer) == buffer
            case Some((payload, rest)) =>
              taken + [payload] + Payloads(m, rest) == all && Leftover(m, rest) == Leftover(m, buffer)
  {}

  class StdoutHandler {
    const markers: Markers
    const maxSize: nat
    /** Whether the caller passed onOutput. */
    const streaming: bool
    /** JSON.parse and the property access after it: None where either throws. */
    const parse: string -> Option<Output>

    var stdout: string
    var stdoutTruncated: bool
    var parseBuffer: string
    /** "" for undefined. */
    var newSessionId: string
    var hadStreamingOutput: bool
    /** The outputs chained onto onOutput, in order. */
    var outputChain: seq<Output>
    ghost var received: string

    ghost predicate Valid()
      reads this
    {
      && NonEmpty(markers)
      && stdout == (if |received| <= maxSize then received else received[..maxSize])
      && stdoutTruncated == (|received| > maxSize)
      && parseBuffer == (if streaming then Leftover(markers, received) else "")
      && outputChain == (if streaming then Parsed(parse, Payloads(markers, received)) else [])
      && newSessionId == LastSession(outputChain)
      && hadStreamingOutput == (outputChain != [])
    }

    constructor (markers: Markers, maxSize: nat, streaming: bool, parse: string -> Option<Output>)
      requires NonEmpty(markers)
      ensures Valid() && received == ""
      ensures this.markers == markers && this.maxSize == maxSize && this.streaming == streaming && this.parse == parse
    {
      this.markers, this.maxSize, this.streaming, this.parse := markers, maxSize, streaming, parse;
      stdout, stdoutTruncated, parseBuffer, newSessionId := "", false, "", "";
      hadStreamingOutput, outputChain, received := false, [], "";
    }

    /** What is kept for the log: the first maxSize characters. */
    method Accumulate(chunk: string)
      requires Valid()
      modifies this`stdout, this`stdoutTruncated
      ensures var all := received + chunk;
              && stdout == (if |all| <= maxSize then all else all[..maxSize])
              && stdoutTruncated == (|all| > maxSize)
    {
      if !stdoutTruncated {
        var remaining := maxSize - |stdout|;
        if |chunk| > remaining {
          assert (received + chunk)[..maxSize] == stdout + chunk[..remaining];
          stdout := stdout + chunk[..remaining];
          stdoutTruncated := true;
        } else {
          stdout := stdout + chunk;
        }
      } else {
        assert (received + chunk)[..maxSize] == received[..maxSize];
      }
    }

    /** One payload taken from the buffer: parsed, its session noted, and the output chained. */
    method Deliver(jsonStr: string, ghost payloads: seq<string>)
      requires outputChain == Parsed(parse, payloads)
      requires newSessionId == LastSession(outputChain) && hadStreamingOutput == (outputChain != [])
      modifies this`newSessionId, this`hadStreamingOutput, this`outputChain
      ensures outputChain == Parsed(parse, payloads + [jsonStr])
      ensures newSessionId == LastSession(outputChain) && hadStreamingOutput == (outputChain != [])
    {
      ParsedAppend(parse, payloads, jsonStr);
      var parsed := parse(jsonStr);
      if parsed.Some? {
        LastSessionAppend(outputChain, parsed.value);
        if parsed.value.newSessionId != "" {
          newSessionId := parsed.value.newSessionId;
        }
        hadStreamingOutput := true;
        outputChain := outputChain + [parsed.value];
      }
    }

    /** The two searches that decide whether the loop goes on. */
    method NextPair() returns (startIdx: int, endIdx: int)
      requires NonEmpty(markers)
      ensures FirstPair(markers, parseBuffer) ==
              if startIdx == -1 || endIdx == -1 then None
              else if 0 <= startIdx && 0 <= endIdx && endIdx + |markers.end| <= |parseBuffer|
              then Some((Trim(Slice(parseBuffer, startIdx + |markers.start|, endIdx)),
                         parseBuffer[endIdx + |markers.end|..]))
              else Some(("", parseBuffer))
      ensures startIdx == -1 || endIdx == -1 || (0 <= startIdx <= endIdx && endIdx + |markers.end| <= |parseBuffer|)
    {
      startIdx, endIdx := IndexOf(parseBuffer, markers.start, 0), -1;
      if startIdx != -1 {
        endIdx := IndexOf(parseBuffer, markers.end, startIdx);
      }
    }

    /** The loop: every complete pair in the buffer is delivered. */
    method DrainBuffer(ghost payloads: seq<string>)
      requires NonEmpty(markers) && outputChain == Parsed(parse, payloads)
      requires newSessionId == LastSession(outputChain) && hadStreamingOutput == (outputChain != [])
      modifies this`parseBuffer, this`newSessionId, this`hadStreamingOutput, this`outputChain
      ensures parseBuffer == Leftover(markers, old(parseBuffer))
      ensures outputChain == Parsed(parse, payloads + Payloads(markers, old(parseBuffer)))
      ensures newSessionId == LastSession(outputChain) && hadStreamingOutput == (outputChain != [])
    {
      hide *;
      ghost var done := [];
      assert payloads + done == payloads;
      while true
        invariant done + Payloads(markers, parseBuffer) == Payloads(markers, old(parseBuffer))
        invariant Leftover(markers, parseBuffer) == Leftover(markers, old(parseBuffer))
        invariant outputChain == Parsed(parse, payloads + done)
        invariant newSessionId == LastSession(outputChain) && hadStreamingOutput == (outputChain != [])
        decreases |parseBuffer|
      {
        var startIdx, endIdx := NextPair();
        TakePayload(markers, parseBuffer, done, Payloads(markers, old(parseBuffer)));
        if startIdx == -1 || endIdx == -1 { break; }
        var jsonStr := Trim(Slice(parseBuffer, startIdx + |markers.start|, endIdx));
        parseBuffer := parseBuffer[endIdx + |markers.end|..];
        assert payloads + (done + [jsonStr]) == payloads + done + [jsonStr];
        Deliver(jsonStr, payloads + done);
        done := done + [jsonStr];
      }
    }

    method OnData(chunk: string)
      requires Valid()
      modifies this
      ensures Valid() && received == old(received) + chunk
    {
      hide Parsed, LastSession, Payloads, Leftover;
      Accumulate(chunk);
      if streaming {
        DrainEarly(markers, received, chunk);
        parseBuffer := parseBuffer + chunk;
        DrainBuffer(Payloads(markers, received));
      }
      received := received + chunk;
    }
  }
}
