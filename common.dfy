/** Value types shared by the competition service and the frontend. */
module Common {

  datatype Option<T> = None | Some(value: T)

  /** Math.abs on the integers the model uses for milliseconds. */
  function Abs(x: int): (r: nat)
    ensures r == x || r == -x
  {
    if x < 0 then -x else x
  }

  /** The penalty attached to a result: "none", "plus2" or "DNF". */
  datatype Penalty = NoPenalty | PlusTwo | Dnf

  /** A result as the frontend receives it: an optional id, a time in milliseconds and
      a penalty. */
  datatype SolveResult = SolveResult(id: Option<string>, time: int, penalty: Penalty)

  /** Largest gap, in milliseconds, between the client's reported solve time and the
      server's own measurement that the server still accepts. */
  const MaxClockSkewMs: nat := 2000

  /** The time the server records for a solve: the client's time when it is within
      2000 ms of the server-measured time, the server-measured time otherwise. */
  function ReconciledTime(clientTime: int, serverTime: int): (t: int)
    ensures t == clientTime || t == serverTime
    ensures Abs(t - serverTime) <= MaxClockSkewMs
    ensures Abs(serverTime - clientTime) <= MaxClockSkewMs ==> t == clientTime
  {
    if Abs(serverTime - clientTime) > MaxClockSkewMs then serverTime else clientTime
  }
}
