/** The persisted high score, over an abstract store: the browser storage
    slot is an optional integer (`None` when nothing is stored). */
module HighScore {

  import opened Wrappers

  /** The high score read from the slot: 0 when nothing is stored. */
  function Read(saved: Option<int>): (h: int)
    ensures saved == None ==> h == 0
    ensures saved.Some? ==> h == saved.value
  {
    match saved
    case None => 0
    case Some(v) => v
  }

  /** The slot after saving a finishing score: written only when the score
      strictly beats the stored one, so the stored value becomes the larger
      of the two and is untouched otherwise. */
  function AfterSave(saved: Option<int>, score: int): (r: Option<int>)
    ensures Read(r) == if score > Read(saved) then score else Read(saved)
    ensures r != saved <==> score > Read(saved)
  {
    if score > Read(saved) then Some(score) else saved
  }

  /** Saving the same score twice is the same as saving it once. */
  lemma AfterSaveIdempotent(saved: Option<int>, score: int)
    ensures AfterSave(AfterSave(saved, score), score) == AfterSave(saved, score)
  {
  }

  /** The high score never goes down by saving, and afterwards it is at least
      the saved score. */
  lemma AfterSaveBounds(saved: Option<int>, score: int)
    ensures Read(AfterSave(saved, score)) >= Read(saved)
    ensures Read(AfterSave(saved, score)) >= score
  {
  }
}
