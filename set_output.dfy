/** builtin/set_output.go: RunVSet, the companion command a step runs to
    hand outputs to later steps. It writes each "--kv" pair, trimmed, as one
    line of the step's output file `<stepOutput>/<step id>`. Flag parsing
    is left to the caller: the flags arrive as `stepIdFlag` and `kv`. */
module SetOutput {
  import opened Wrappers
  import opened GoStrings
  import opened GoPath

  const StepIdMissing: string := "step id is missing"

  function Malformed(pair: string): string {
    "pair " + pair + " is malformed"
  }

  /** A trimmed pair that RunVSet accepts: it holds at least one '='. */
  predicate WellFormed(pair: string) {
    |Split(pair, '=')| != 1
  }

  /** What the step's output file holds after the call: left alone, or
      truncated and then given `content`. */
  datatype FileEffect = Untouched | Written(content: string)

  /** The lines written for `pairs`: each pair trimmed, then "\n". */
  function PairLines(pairs: seq<string>): string
    decreases |pairs|
  {
    if pairs == [] then [] else PairLines(pairs[..|pairs| - 1]) + TrimSpace(pairs[|pairs| - 1]) + "\n"
  }

  /** The position of the first pair that is malformed once trimmed, or
      |pairs| when there is none. */
  function FirstMalformed(pairs: seq<string>): (j: nat)
    ensures j <= |pairs|
    ensures forall k :: 0 <= k < j ==> WellFormed(TrimSpace(pairs[k]))
    ensures j < |pairs| ==> !WellFormed(TrimSpace(pairs[j]))
    decreases |pairs|
  {
    if pairs == [] then 0
    else if !WellFormed(TrimSpace(pairs[0])) then 0
    else 1 + FirstMalformed(pairs[1..])
  }

  // ---------------------------------------------------------------- bufio.Writer

  /** bufio.NewWriter's buffer size. */
  const BufferSize: nat := 4096

  /** A bufio.Writer over the output file: what has reached the file, and
      what is still in the buffer. Writes to the file are taken to succeed. */
  datatype Buffered = Buffered(file: string, buf: string)

  /** bufio.Writer.WriteString: while the text does not fit in what is left
      of the buffer, a text met by an empty buffer goes straight to the
      file, otherwise the buffer is filled up and flushed; the rest is
      buffered. Nothing is lost, the buffer never overflows, and the file is
      written only once more than BufferSize bytes have been written. */
  function WriteString(w: Buffered, s: string): (r: Buffered)
    requires |w.buf| <= BufferSize
    ensures r.file + r.buf == w.file + w.buf + s
    ensures |r.buf| <= BufferSize
    ensures w.file <= r.file
    ensures r.file != w.file ==> |w.file| + |w.buf| + |s| > BufferSize
    decreases |s|, |w.buf|
  {
    if |s| <= BufferSize - |w.buf| then Buffered(w.file, w.buf + s)
    else if w.buf == [] then Buffered(w.file + s, [])
    else
      var n := BufferSize - |w.buf|;
      var r := WriteString(Buffered(w.file + w.buf + s[..n], []), s[n..]);
      assert w.file + w.buf + s[..n] + s[n..] == w.file + w.buf + s;
      r
  }

  /** bufio.Writer.Flush: the buffer goes to the file. */
  function Flush(w: Buffered): (r: Buffered)
    ensures r.file == w.file + w.buf && r.buf == []
  {
    Buffered(w.file + w.buf, [])
  }

  /** The writer after writing `pairs`, each trimmed and followed by "\n",
      to a fresh writer. */
  function Writes(pairs: seq<string>): (w: Buffered)
    ensures w.file + w.buf == PairLines(pairs)
    ensures |w.buf| <= BufferSize
    ensures w.file != [] ==> |PairLines(pairs)| > BufferSize
    decreases |pairs|
  {
    if pairs == [] then Buffered([], [])
    else
      var w := Writes(pairs[..|pairs| - 1]);
      var pair := TrimSpace(pairs[|pairs| - 1]);
      var w1 := WriteString(w, pair);
      var w2 := WriteString(w1, "\n");
      assert PairLines(pairs) == PairLines(pairs[..|pairs| - 1]) + pair + "\n";
      w2
  }

  /** What reaches the file before the first malformed pair is a prefix of
      the lines of the pairs before it, and nothing at all while those
      lines fit in the buffer. */
  lemma WritesPrefix(pairs: seq<string>)
    ensures Writes(pairs).file <= PairLines(pairs)
    ensures |PairLines(pairs)| <= BufferSize ==> Writes(pairs).file == []
  {
    var w := Writes(pairs);
    assert PairLines(pairs)[..|w.file|] == w.file;
  }

  /** RunVSet. A blank step id is refused; no pairs means nothing to do and
      the file is not opened; an open error is returned as it is. Otherwise
      the file is truncated and the pairs are written in order through the
      buffered writer; the first pair without '=' stops the run with an
      error, and the file keeps only what the writer had flushed by then,
      which is nothing while the earlier lines fit in its buffer. */
  method RunVSet(stepIdFlag: string, kv: seq<string>, stepOutput: string, openError: Option<string>)
    returns (err: Option<string>, path: string, file: FileEffect)
    ensures IsBlank(stepIdFlag) ==> err == Some(StepIdMissing) && file == Untouched
    ensures !IsBlank(stepIdFlag) && kv == [] ==> err == None && file == Untouched
    ensures !IsBlank(stepIdFlag) && kv != [] ==> path == JoinPath([stepOutput, TrimSpace(stepIdFlag)])
    ensures !IsBlank(stepIdFlag) && kv != [] && openError.Some? ==> err == openError && file == Untouched
    ensures !IsBlank(stepIdFlag) && kv != [] && openError.None? ==>
      var j := FirstMalformed(kv);
      if j < |kv| then
        err == Some(Malformed(TrimSpace(kv[j]))) && file == Written(Writes(kv[..j]).file)
        && file.content <= PairLines(kv[..j])
        && (|PairLines(kv[..j])| <= BufferSize ==> file.content == [])
      else err == None && file == Written(PairLines(kv))
  {
    path, file := [], Untouched;
    var stepId := TrimSpace(stepIdFlag);
    if stepId == [] {
      return Some(StepIdMissing), path, file;
    }
    if |kv| == 0 {
      return None, path, file;
    }
    path := JoinPath([stepOutput, stepId]);
    if openError.Some? {
      return openError, path, file;
    }
    var content;
    err, content := WritePairs(kv);
    file := Written(content);
  }

  /** The loop over the pairs, through a bufio.Writer that is flushed
      only after the last pair: at a malformed pair the file holds what the
      writer had flushed of the lines before it. */
  method WritePairs(kv: seq<string>) returns (err: Option<string>, content: string)
    ensures var j := FirstMalformed(kv);
      if j < |kv| then
        err == Some(Malformed(TrimSpace(kv[j]))) && content == Writes(kv[..j]).file
        && content <= PairLines(kv[..j]) && (|PairLines(kv[..j])| <= BufferSize ==> content == [])
      else err == None && content == PairLines(kv)
  {
    var w := Buffered([], []);
    var i := 0;
    while i < |kv|
      invariant 0 <= i <= |kv| && i <= FirstMalformed(kv)
      invariant w == Writes(kv[..i])
    {
      var pair := TrimSpace(kv[i]);
      var elems := Split(pair, '=');
      if |elems| == 1 {
        WritesPrefix(kv[..i]);
        return Some(Malformed(pair)), w.file;
      }
      assert kv[..i + 1][..i] == kv[..i];
      w := WriteString(w, pair);
      w := WriteString(w, "\n");
      i := i + 1;
    }
    assert kv[..i] == kv;
    w := Flush(w);
    return None, w.file;
  }
}
