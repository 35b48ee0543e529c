/** AES-GCM as far as the storage formats can see it. */
module Sealing {
  import opened Bytes

  const TAG_SIZE := 16

  /** The volume's identity and the nonce domain are fixed: only SeqNum and block number vary. */
  datatype Cipher =
    | Plain
    | Aead(seal: (nat, nat, seq<byte>) -> seq<byte>, open: (nat, nat, seq<byte>) -> Option<seq<byte>>)
  {
    /** Opening undoes sealing, and a seal adds one tag. */
    ghost predicate Opens(blockSize: nat)
    {
      Aead? ==> forall s, b, p ::
        |p| == blockSize ==> |seal(s, b, p)| == blockSize + TAG_SIZE && open(s, b, seal(s, b, p)) == Some(p)
    }
  }
}
