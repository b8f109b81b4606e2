/**
 * LilypondProcessingContext: the mutable state of one render pass, the key
 * and time signature most recently emitted.
 */
module ProcessingContext {
  import opened MusicModel

  /** A snapshot of the context's two fields. */
  datatype ContextState = ContextState(currentKey: Key, currentTime: TimeSignature)

  /** C major. */
  const DefaultKey := Key(CNatural, Major)

  /** 1/4. */
  const DefaultTime := TimeSignature(1, 4)

  const FreshState := ContextState(DefaultKey, DefaultTime)

  class LilypondProcessingContext {
    var currentKey: Key
    var currentTime: TimeSignature

    /** A fresh context holds C major and 1/4. */
    constructor()
      ensures currentKey == DefaultKey && currentTime == DefaultTime
      ensures State() == FreshState
    {
      currentKey := DefaultKey;
      currentTime := DefaultTime;
    }

    function State(): ContextState
      reads this
    {
      ContextState(currentKey, currentTime)
    }
  }
}
