/** Process records: the rows of the input file and the scheduler's control blocks. */
module Processes {

  datatype ProcessState = WAITING | READY | RUNNING | STOPPED | TERMINATED

  // A row of the input file.
  datatype Job = Job(id: int, arrival: int, exec: int, priority: int, memory: int)

  // A control block. start == -1 means never run, lastPreempt == -1 never preempted.
  datatype Pcb = Pcb(id: int, pid: int, arrival: int, exec: int, priority: int, memory: int,
                     start: int, remaining: int, waiting: int, lastPreempt: int, state: ProcessState)

  // What the generator fills in before the process exists.
  function NewPcb(j: Job): Pcb {
    Pcb(j.id, -1, j.arrival, j.exec, j.priority, j.memory, -1, j.exec, 0, -1, WAITING)
  }

  // The record queue_front returns for an empty queue.
  const EMPTY_PCB := Pcb(0, -1, 0, 0, 0, 0, 0, 0, 0, 0, WAITING)

  ghost function PcbIds(v: seq<Pcb>): (r: seq<int>)
  {
    seq(|v|, k requires 0 <= k < |v| => v[k].id)
  }

  ghost function NewPcbs(jobs: seq<Job>): (ps: seq<Pcb>)
    ensures |ps| == |jobs| && forall i :: 0 <= i < |jobs| ==> ps[i] == NewPcb(jobs[i])
  {
    seq(|jobs|, i requires 0 <= i < |jobs| => NewPcb(jobs[i]))
  }
}
