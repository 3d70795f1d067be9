/**
 The durable deployment log: appends that stop at a fixed byte limit.
 Content is a sequence of bytes.
*/
module DeploymentLogs {
  import opened Texts

  const LIMIT_BYTES: nat := 10 * 1024 * 1024
  const TRUNCATION_MARKER := "\n[sshdock: deployment log truncated at 10 MiB]\n"
  const MAXIMUM_CONTENT: nat := LIMIT_BYTES - |TRUNCATION_MARKER|

  datatype Log = Log(content: string, truncated: bool)

  const EMPTY := Log("", false)

  function AppendContent(existing: string, output: string): Log {
    if |existing| >= MAXIMUM_CONTENT then
      Log(existing[..MAXIMUM_CONTENT] + TRUNCATION_MARKER, true)
    else
      var remaining := MAXIMUM_CONTENT - |existing|;
      if remaining >= |output| then Log(existing + output, false)
      else Log(existing + output[..remaining] + TRUNCATION_MARKER, true)
  }

  /** One append: empty output and truncated logs leave the content alone. */
  function Append(log: Log, output: string): Log {
    if output == "" || log.truncated then log else AppendContent(log.content, output)
  }

  function AppendAll(log: Log, outputs: seq<string>): Log {
    if outputs == [] then log else Append(AppendAll(log, outputs[..|outputs| - 1]), outputs[|outputs| - 1])
  }

  /** What a log of all the output should be: as much as fits, and the marker iff some did not. */
  function Bounded(all: string): Log {
    if |all| <= MAXIMUM_CONTENT then Log(all, false) else Log(all[..MAXIMUM_CONTENT] + TRUNCATION_MARKER, true)
  }

  /** However the output was cut into appends, the log is a function of all of it. */
  lemma {:induction false} AppendsAreBounded(outputs: seq<string>)
    ensures AppendAll(EMPTY, outputs) == Bounded(Concat(outputs))
  {
    if outputs != [] {
      var before, last := outputs[..|outputs| - 1], outputs[|outputs| - 1];
      AppendsAreBounded(before);
      var all := Concat(before);
      if |all| > MAXIMUM_CONTENT {
        assert (all + last)[..MAXIMUM_CONTENT] == all[..MAXIMUM_CONTENT];
      } else if last == "" {
        assert all + last == all;
      } else if |all| == MAXIMUM_CONTENT {
        assert (all + last)[..MAXIMUM_CONTENT] == all[..MAXIMUM_CONTENT];
      } else if |all + last| > MAXIMUM_CONTENT {
        assert (all + last)[..MAXIMUM_CONTENT] == all + last[..MAXIMUM_CONTENT - |all|];
      }
    }
  }

  /** The log never passes the limit, and it reaches it exactly when output was dropped. */
  lemma AppendsNeverPassLimit(outputs: seq<string>)
    ensures var log := AppendAll(EMPTY, outputs);
            |log.content| <= LIMIT_BYTES && (log.truncated <==> |Concat(outputs)| > MAXIMUM_CONTENT)
            && (log.truncated <==> |log.content| == LIMIT_BYTES)
  {
    AppendsAreBounded(outputs);
  }

  predicate Fits(log: Log) {
    log.truncated || |log.content| <= MAXIMUM_CONTENT
  }

  /** Readers may keep what they have: an append only adds bytes at the end. */
  lemma AppendExtends(log: Log, output: string)
    requires Fits(log)
    ensures Fits(Append(log, output))
    ensures log.content <= Append(log, output).content
  {
  }
}
