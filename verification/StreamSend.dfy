/**
 * The sending half of a StreamFile session, whatever the disk, the clock and the cipher do: when the fill callback
 * ends the stream, when it fails, and that a failed one never ends it.
 */
module StreamSend {
  import opened Bytes
  import opened Num32
  import opened Vtp
  import opened StreamFile

  /** The fill has nothing more to read. */
  predicate AtEnd(tx: SfTx, env: FillEnv) {
    tx.metaSent && env.read == 0
  }

  /** The next frame cannot be made: the file cannot be read, or the cipher fails. */
  predicate Breaks(tx: SfTx, env: FillEnv) {
    (tx.metaSent && env.read < 0) || (!AtEnd(tx, env) && !env.sealed)
  }

  /**
   * One call: it returns -1 exactly when the session has reported success or the file is at its end; it fails the
   * session exactly when a frame is wanted and cannot be made; otherwise an active session hands over one frame
   * of the metadata or of the bytes just read, and nothing else ever hands over a byte.
   */
  lemma {:induction false} FillIff(g: Gcm, tx: SfTx, env: FillEnv)
    requires GcmOk(g) && EnvOk(tx, env) && |tx.file| < 0x1_0000_0000_0000_0000
    ensures var f := FillOnce(g, tx, env); var up := tx.state == TxActive;
            && (f.last <==> tx.state == TxDone || (up && AtEnd(tx, env)))
            && (up && Breaks(tx, env) ==> f.tx == tx.(state := TxFailed))
            && (up && !Breaks(tx, env) && !AtEnd(tx, env) ==>
                  && f.bytes == Frame(g, env.nonce, env.stamp,
                                      if tx.metaSent then tx.file[tx.offset..tx.offset + env.read] else Meta(tx))
                  && f.tx == if tx.metaSent then tx.(offset := tx.offset + env.read) else tx.(metaSent := true))
            && (!(up && !Breaks(tx, env) && !AtEnd(tx, env)) ==> f.bytes == [])
            && (!up || AtEnd(tx, env) ==> f.tx == tx)
  {
    hide Frame, Meta;
  }

  /** A list of calls of the callback. */
  ghost predicate Callable(g: Gcm, tx: SfTx, envs: seq<FillEnv>)
    requires |tx.file| < 0x1_0000_0000_0000_0000
    decreases |envs|
  {
    envs == [] || (EnvOk(tx, envs[0]) && FillOnce(g, tx, envs[0]).tx.file == tx.file
                   && Callable(g, FillOnce(g, tx, envs[0]).tx, envs[1..]))
  }

  ghost function Called(g: Gcm, tx: SfTx, envs: seq<FillEnv>): Filled
    requires |tx.file| < 0x1_0000_0000_0000_0000 && Callable(g, tx, envs)
    decreases |envs|
  {
    if envs == [] then Filled(tx, [], false)
    else
      var f := FillOnce(g, tx, envs[0]);
      var r := Called(g, f.tx, envs[1..]);
      Filled(r.tx, f.bytes + r.bytes, f.last || r.last)
  }

  /** Once failed, the callback neither sends nor ends anything, however often it is called. */
  lemma {:induction false} FailedNeverEnds(g: Gcm, tx: SfTx, envs: seq<FillEnv>)
    requires |tx.file| < 0x1_0000_0000_0000_0000 && tx.state == TxFailed && Callable(g, tx, envs)
    ensures Called(g, tx, envs) == Filled(tx, [], false)
    decreases |envs|
  {
    hide Frame, Meta;
    if envs != [] {
      FailedNeverEnds(g, tx, envs[1..]);
    }
  }

  /**
   * From the start of a transfer, whatever happens: the stream is ended only at the end of the file, and whenever
   * it was ended the session had not failed before and every byte of the file had been handed over.
   */
  lemma {:induction false} EndsComplete(g: Gcm, tx: SfTx, envs: seq<FillEnv>)
    requires |tx.file| < 0x1_0000_0000_0000_0000 && tx.state in {TxActive, TxFailed} && Callable(g, tx, envs)
    ensures var r := Called(g, tx, envs);
            r.last ==> tx.state == TxActive && r.tx.metaSent && r.tx.offset == |tx.file|
    decreases |envs|
  {
    hide Frame, Meta;
    if tx.state == TxFailed {
      FailedNeverEnds(g, tx, envs);
    } else if envs != [] {
      var f := FillOnce(g, tx, envs[0]);
      EndsComplete(g, f.tx, envs[1..]);
      if f.last {
        StaysAtEnd(g, f.tx, envs[1..]);
      }
    }
  }

  /** At the end of the file the offset and the metadata flag stay. */
  lemma {:induction false} StaysAtEnd(g: Gcm, tx: SfTx, envs: seq<FillEnv>)
    requires |tx.file| < 0x1_0000_0000_0000_0000 && Callable(g, tx, envs)
    requires tx.state in {TxActive, TxFailed} && tx.metaSent && tx.offset == |tx.file|
    ensures Called(g, tx, envs).tx.metaSent && Called(g, tx, envs).tx.offset == |tx.file|
    decreases |envs|
  {
    hide Frame, Meta;
    if envs != [] {
      StaysAtEnd(g, FillOnce(g, tx, envs[0]).tx, envs[1..]);
    }
  }
}
