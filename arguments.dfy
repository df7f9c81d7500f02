/**
  How ffmpeg reads the argument lists both scripts build: the executable, the global
  `-y` flag, a run of flag/value pairs, and the output file last. Reading a list back
  this way is the partner of building it: each script's command lemma says which
  flags the pairs hold, in which order, and what value each flag gets.
 */
module Arguments {
  import opened Common

  /** The flag/value region of `[exe, "-y", pairs..., output]`. */
  function Options(cmd: seq<string>): (r: seq<string>)
    ensures |r| == if |cmd| < 3 then 0 else |cmd| - 3
  {
    if |cmd| < 3 then [] else cmd[2..|cmd| - 1]
  }

  /** The flags of a pair region: the elements at even positions, in order. */
  function Flags(opts: seq<string>): (r: seq<string>)
    ensures |r| == |opts| / 2
    decreases |opts|
  {
    if |opts| < 2 then [] else [opts[0]] + Flags(opts[2..])
  }

  /** The value that follows the first occurrence of `flag` in flag position. */
  function FlagValue(opts: seq<string>, flag: string): (r: Option<string>)
    ensures r.Some? <==> flag in Flags(opts)
    decreases |opts|
  {
    if |opts| < 2 then None
    else if opts[0] == flag then Some(opts[1])
    else FlagValue(opts[2..], flag)
  }
}
