/** Where the tunnel binary is looked for. Both tunnel versions keep an
    index into a fixed list of three base directories (the user-profile
    `.browserstack` directory, the working directory, the temp directory)
    and step forward through it when a launch fails. */
module Paths {
  import opened Wrappers
  import opened Text

  const BinaryName := "BrowserStackLocal.exe"

  /** `basePaths.Length` in both tunnels. */
  const CandidateCount := 3

  /** The three base directories, taken from the environment as opaque strings. */
  type BasePaths = p: seq<string> | |p| == CandidateCount witness ["", "", ""]

  /** `Path.Combine(basePaths[i], binaryName)`. */
  function Candidate(basePaths: BasePaths, i: int): string
    requires 0 <= i < CandidateCount
  {
    Combine(basePaths[i], BinaryName)
  }

  /** One `fallbackPaths` call on the index alone: it fails once the last
      candidate has been reached, otherwise it moves to the next one. */
  function FallbackStep(index: int): (r: Option<int>)
    ensures r.Some? <==> index < CandidateCount - 1
    ensures r.Some? ==> r.value == index + 1
  {
    if index >= CandidateCount - 1 then None else Some(index + 1)
  }

  /** The index after `n` successive `fallbackPaths` calls, or None once one
      of them has thrown. */
  function Fallbacks(index: int, n: nat): Option<int>
    decreases n
  {
    if n == 0 then Some(index)
    else match FallbackStep(index)
      case None => None
      case Some(next) => Fallbacks(next, n - 1)
  }

  /** From index `i` (-1 after an explicit path, 0 after the default one)
      exactly `2 - i` fallbacks succeed, visiting `i + 1, ..., 2` in order
      with the index only going up; every further call throws. */
  lemma {:induction false} FallbackChain(index: int, n: nat)
    requires -1 <= index <= CandidateCount - 1
    ensures Fallbacks(index, n) == if n <= CandidateCount - 1 - index then Some(index + n) else None
    decreases n
  {
    if n > 0 && index < CandidateCount - 1 {
      FallbackChain(index + 1, n - 1);
    }
  }

  /** The first fallback after an explicit binary path goes to candidate 0,
      and three fallbacks later the chain is exhausted. */
  lemma ExplicitPathChain()
    ensures Fallbacks(-1, 1) == Some(0)
    ensures Fallbacks(-1, 3) == Some(2)
    ensures Fallbacks(-1, 4) == None
    ensures Fallbacks(0, 2) == Some(2) && Fallbacks(0, 3) == None
  {
    FallbackChain(-1, 1);
    FallbackChain(-1, 3);
    FallbackChain(-1, 4);
    FallbackChain(0, 2);
    FallbackChain(0, 3);
  }
}
