/** A blob as declared before any of its bytes arrive: its size and its digests. */
module Content {

  predicate IsLowerHex(text: string, digits: nat) {
    && |text| == digits
    && forall i | 0 <= i < |text| :: '0' <= text[i] <= '9' || 'a' <= text[i] <= 'f'
  }

  datatype Declaration = Declaration(size: int, sha: string, crc: string) {

    /** The declaration's own validation: a size, 64 hex digits and 16 hex digits. */
    predicate Valid() {
      size >= 0 && IsLowerHex(sha, 64) && IsLowerHex(crc, 16)
    }
  }
}
