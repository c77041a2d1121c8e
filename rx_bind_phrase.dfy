/** The bind-phrase dispatcher: hands a phrase to the receiver protocol
    that can bind with it, or reports that nothing was done. The provider
    state and the compile-time protocol switch are parameters; the call
    into the protocol is recorded in the outcome instead of being made. */
module RxBindPhrase {
  import opened CTypes

  /** `rxRuntimeState.rxProvider`: only the serial provider is told apart
      from the others here. */
  datatype RxProvider = RxProviderSerial | OtherRxProvider(code: nat)

  /** `rxRuntimeState.serialrxProvider`: only CRSF is told apart. */
  datatype SerialRxProvider = SerialRxCrsf | OtherSerialRxProvider(code: nat)

  /** The part of the receiver runtime state the dispatcher reads, and
      whether `USE_SERIALRX_CRSF` is compiled in. */
  datatype RxConfig = RxConfig(rxProvider: RxProvider, serialrxProvider: SerialRxProvider, useSerialRxCrsf: bool)

  /** What a call returns, and the phrases it passed to `crsfRxBindPhrase`,
      in call order. */
  datatype Outcome = Outcome(result: bool, crsfCalls: seq<CString>)

  /** The one configuration with a protocol that binds from a phrase: the
      serial provider, CRSF selected and compiled in. */
  predicate CrsfWired(config: RxConfig)
  {
    config.rxProvider == RxProviderSerial && config.serialrxProvider == SerialRxCrsf && config.useSerialRxCrsf
  }

  /** `rx_bind_phrase.c` lines 33-55. `bindPhrase` is None for a NULL pointer. The dispatcher
      succeeds exactly when it was asked to bind, the phrase is present and
      non-empty and CRSF is wired; it then passes the phrase, unchanged, to
      the protocol exactly once, and on every false return it has called
      nothing. */
  function DoRxBindPhrase(bindPhrase: Option<CString>, doBindPhrase: bool, config: RxConfig): (o: Outcome)
    ensures o.result <==> doBindPhrase && bindPhrase.Some? && bindPhrase.value != [] && CrsfWired(config)
    ensures o.crsfCalls == if o.result then [bindPhrase.value] else []
  {
    if !doBindPhrase || bindPhrase.None? || |bindPhrase.value| == 0 then
      Outcome(false, [])
    else
      match config.rxProvider
      case RxProviderSerial =>
        (match config.serialrxProvider
         case SerialRxCrsf =>
           if config.useSerialRxCrsf then
             // the phrase is forwarded to the CRSF protocol, once
             Outcome(true, [bindPhrase.value])
           else
             Outcome(false, [])
         case OtherSerialRxProvider(_) => Outcome(false, []))
      case OtherRxProvider(_) => Outcome(false, [])
  }

  /** `rx_bind_phrase.c` lines 35-37: with the flag clear, a NULL phrase or an empty one, the
      answer is false whatever the provider. */
  lemma {:induction false} RefusedBeforeProvider(bindPhrase: Option<CString>, doBindPhrase: bool, config: RxConfig, other: RxConfig)
    requires !doBindPhrase || bindPhrase.None? || bindPhrase == Some([])
    ensures DoRxBindPhrase(bindPhrase, doBindPhrase, config) == Outcome(false, [])
    ensures DoRxBindPhrase(bindPhrase, doBindPhrase, config) == DoRxBindPhrase(bindPhrase, doBindPhrase, other)
  {
  }

  /** `rx_bind_phrase.c` lines 57-60: the dispatcher asked to bind. */
  function StartRxBindPhrase(bindPhrase: Option<CString>, config: RxConfig): (o: Outcome)
    ensures o.result <==> bindPhrase.Some? && bindPhrase.value != [] && CrsfWired(config)
    ensures o.crsfCalls == if o.result then [bindPhrase.value] else []
  {
    DoRxBindPhrase(bindPhrase, true, config)
  }

  /** `rx_bind_phrase.c` lines 62-65: asks the dispatcher with the flag clear, so the answer is
      false for every configuration and no protocol is called. */
  function GetRxBindPhraseSupported(config: RxConfig): (o: Outcome)
    ensures !o.result && o.crsfCalls == []
  {
    DoRxBindPhrase(None, false, config)
  }

  /** An empty phrase never starts a bind, whatever the configuration. */
  lemma {:induction false} EmptyPhraseNeverBinds(config: RxConfig)
    ensures !StartRxBindPhrase(Some([]), config).result
  {
  }
}
