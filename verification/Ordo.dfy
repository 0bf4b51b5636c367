/** Ordo timestamps: clock readings of different cores are comparable only up to
    an uncertainty window. Every comparison of two timestamps in TimeStone goes
    through these predicates (include/ordo_clock.h, lib/clock.h). */
module Ordo {

  /** The uncertainty window (g_ordo_boundary). It has no value here: everything
      proved in this project holds for every window, zero included. */
  const ORDO_BOUNDARY: nat

  predicate Lt(t1: nat, t2: nat) {
    t1 < t2 && t2 - t1 > ORDO_BOUNDARY
  }

  predicate Gt(t1: nat, t2: nat) {
    t1 > t2 && t1 - t2 > ORDO_BOUNDARY
  }

  /** A timestamp field of a log record: MAX_VERSION until it is assigned. */
  datatype Clk = Max | At(c: nat)

  /** lt_clock on a timestamp field; MAX_VERSION is above every clock reading. */
  predicate LtClk(t1: Clk, t2: nat) {
    t1.At? && Lt(t1.c, t2)
  }

  /** gte_clock is the negation of lt_clock, not its mirror image. */
  predicate GteClk(t1: Clk, t2: nat) {
    !LtClk(t1, t2)
  }
}
