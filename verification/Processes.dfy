/** Process records as values: the fields of `process.Process` that scheduling reads or writes,
    and what one burst of execution and a reset do to them. */
module Processes {

  datatype Option<+T> = None | Some(value: T)

  /** Fixed-point scale of CFS virtual runtime: `1 << 20`. */
  const VRUNTIME_SCALE := 0x10_0000

  datatype ProcState = New | Ready | Running | Waiting | Terminated

  datatype IOBurst = IOBurst(afterCPU: int, duration: int, completed: bool)

  /** One process. `level` is the entry the MLFQ and MLQ schedulers keep for it in their
      pointer-keyed `levels` map; `None` means that the map has no entry. */
  datatype Proc = Proc(
    pid: int,
    arrival: int,
    burst: int,
    priority: int,
    weight: int,
    remaining: int,
    state: ProcState,
    started: bool,
    startTime: int,
    completion: int,
    waiting: int,
    turnaround: int,
    response: int,
    lastExecuted: int,
    vruntime: int,
    io: seq<IOBurst>,
    ioIndex: nat,
    ioRemaining: int,
    level: Option<int>)
  {
    predicate Complete() {
      state == Terminated || remaining <= 0
    }

    function Executed(): int {
      burst - remaining
    }
  }

  /** Virtual runtime gained by executing for `duration` ticks (integer division, positive weight). */
  function VStep(duration: int, weight: int): int {
    if weight > 0 then duration * VRUNTIME_SCALE / weight else 0
  }

  /** What `Process.Execute` does to the record. */
  function Execute(p: Proc, now: int, duration: int): Proc {
    var q := p.(
      state := Running,
      started := true,
      startTime := if p.started then p.startTime else now,
      response := if p.started then p.response else now - p.arrival,
      remaining := p.remaining - duration,
      lastExecuted := now + duration,
      vruntime := p.vruntime + VStep(duration, p.weight));
    if q.remaining <= 0 then
      q.(state := Terminated,
         completion := now + duration,
         turnaround := now + duration - p.arrival,
         waiting := now + duration - p.arrival - p.burst,
         remaining := 0)
    else q
  }

  /** The first burst at or after index `k` that has not fired. */
  function NextBurst(io: seq<IOBurst>, k: nat): nat
    decreases |io| - k
  {
    if k < |io| && io[k].completed then NextBurst(io, k + 1) else k
  }

  /** Whether the process, having just executed, starts an I/O burst. */
  predicate Fires(p: Proc) {
    var k := NextBurst(p.io, p.ioIndex);
    k < |p.io| && p.Executed() >= p.io[k].afterCPU && p.io[k].duration > 0
  }

  function StartBurst(p: Proc): Proc
    requires Fires(p)
  {
    var k := NextBurst(p.io, p.ioIndex);
    p.(io := p.io[k := p.io[k].(completed := true)],
       ioRemaining := p.io[k].duration,
       ioIndex := k + 1,
       state := Waiting)
  }

  /** What `checkIOBurst` does to an unfinished process on the CPU. */
  function TryBurst(p: Proc): Proc {
    if Fires(p) then StartBurst(p) else p.(ioIndex := NextBurst(p.io, p.ioIndex))
  }

  function ClearBursts(io: seq<IOBurst>): seq<IOBurst> {
    seq(|io|, j requires 0 <= j < |io| => io[j].(completed := false))
  }

  /** What `Simulator.Reset` (with the scheduler's own reset) does to one process. */
  function ResetProc(p: Proc): Proc {
    p.(state := New, remaining := p.burst, startTime := -1, completion := 0, waiting := 0,
       turnaround := 0, response := 0, vruntime := 0, started := false, lastExecuted := 0,
       ioIndex := 0, ioRemaining := 0, io := ClearBursts(p.io), level := None)
  }

  /** A process as `NewProcess` makes it, with the input checks of the API layer applied. */
  ghost predicate Fresh(p: Proc) {
    && p.pid >= 0 && p.arrival >= 0 && p.burst >= 1 && p.weight >= 1
    && (forall b | b in p.io :: b.duration > 0 && !b.completed)
    && p == ResetProc(p)
  }
}
