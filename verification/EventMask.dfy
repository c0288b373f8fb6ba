/** The EVM_ bits of an event's mask. */
module EventMask {

  const EVM_READ := 0x02
  const EVM_WRITE := 0x04
  const EVM_PERSIST := 0x10

  predicate Reads(flags: nat) {
    (flags / 2) % 2 == 1
  }

  predicate Writes(flags: nat) {
    (flags / 4) % 2 == 1
  }

  predicate Persists(flags: nat) {
    (flags / 16) % 2 == 1
  }

  /** `setFlags`: the timeout bit is never stored. */
  function Stored(mask: nat): (flags: nat)
    ensures Reads(flags) == Reads(mask) && Writes(flags) == Writes(mask) && Persists(flags) == Persists(mask)
    ensures flags % 2 == 0 && (flags == mask || flags + 1 == mask)
  {
    Halves(mask);
    mask / 2 * 2
  }

  lemma Halves(mask: nat)
    ensures var flags := mask / 2 * 2; flags / 2 == mask / 2 && flags / 4 == mask / 4 && flags / 16 == mask / 16
  {
    var half := mask / 2;
    assert mask / 4 == half / 2 && half * 2 / 4 == half / 2;
    assert mask / 16 == half / 8 && half * 2 / 16 == half / 8;
  }

  lemma Masks()
    ensures Reads(EVM_READ) && !Writes(EVM_READ) && Stored(EVM_READ) == EVM_READ
    ensures Reads(EVM_READ + EVM_PERSIST) && !Writes(EVM_READ + EVM_PERSIST) && Persists(EVM_READ + EVM_PERSIST)
    ensures Reads(EVM_READ + EVM_WRITE) && Writes(EVM_READ + EVM_WRITE)
  {
  }
}
