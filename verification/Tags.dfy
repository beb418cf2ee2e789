/** The tag an epoll event carries: 32 bits of job, 8 of kind, 24 of step. */
module Tags {
  const B24: nat := 0x100_0000
  const B32: nat := 0x1_0000_0000

  /** Three fields side by side in 64 bits; a job or step that does not fit wraps. */
  function Make(job: nat, kind: nat, step: int): nat
    requires kind < 256
  {
    (job % B32) * B32 + kind * B24 + (step + 1) % B24
  }

  function JobOf(tag: nat): nat {
    tag / B32
  }

  function KindOf(tag: nat): nat {
    tag / B24 % 256
  }

  function StepOf(tag: nat): int {
    tag % B24 - 1
  }

  /** What comes out of any tag: the kind whole, the job and the step up to their widths. */
  lemma Unpacked(job: nat, kind: nat, step: int)
    requires kind < 256
    ensures var t := Make(job, kind, step);
            JobOf(t) == job % B32 && KindOf(t) == kind && StepOf(t) == (step + 1) % B24 - 1
  {
    var j, s := job % B32, (step + 1) % B24;
    var t := Make(job, kind, step);
    assert t == (j * 256 + kind) * B24 + s;
    assert t / B24 == j * 256 + kind && t % B24 == s;
    assert t == j * B32 + (kind * B24 + s) && kind * B24 + s < B32;
  }

  /** A tag brings its job and step back if and only if they fit its fields: a job
      below 2^32 and a step below 2^24 - 1, or -1 for no step. */
  lemma TagComesBackExactly(job: nat, kind: nat, step: int)
    requires kind < 256
    ensures var t := Make(job, kind, step);
            (JobOf(t) == job && StepOf(t) == step) <==> job < B32 && -1 <= step < B24 - 1
  {
    Unpacked(job, kind, step);
  }

  /** Past that, a late event of one step can pass for an event of another. */
  lemma FarStepsCollide(job: nat, kind: nat, step: int)
    requires kind < 256
    ensures Make(job, kind, step) == Make(job, kind, step + B24)
  {
    assert (step + B24 + 1) % B24 == (step + 1) % B24;
  }
}
