/** The largest integer that records and reports may hold. */
module Integers {

  const MAX_INTEGER: nat := 0x7fff_ffff_ffff_ffff
}
