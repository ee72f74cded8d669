/** The process words that the facade keeps in statics: their values, and the object that holds them. */
module ProcessWords {
  import opened Types
  import opened CategorySets

  /** What the words say. */
  datatype Words = Words(
    running: bool,               // RUNNING
    latched: set<Category>,      // LATCHED
    denyUntil: bool,             // DENY_UNTIL_FULL_SCAN
    scanDone: bool,              // FULL_SCAN_DONE
    waitDone: bool)              // the value inside FULL_SCAN_WAIT

  const CLEAN_WORDS := Words(false, {}, false, false, false)

  /** The words as the process holds them: the latch is a bit set in one 32-bit word. */
  class Statics {
    var running: bool
    var latched: bv32
    var denyUntil: bool
    var scanDone: bool
    var waitDone: bool

    /** The latch word holds the bits of categories only. */
    predicate Valid()
      reads this
    {
      NoStrays(latched)
    }

    function View(): Words
      reads this
    {
      Words(running, Abs(latched), denyUntil, scanDone, waitDone)
    }

    constructor ()
      ensures Valid() && View() == CLEAN_WORDS
    {
      running, latched, denyUntil, scanDone, waitDone := false, 0, false, false, false;
      new;
      EmptyIff(0);
    }

    /** Ors the bits of a one-element set into the word. */
    method Latch(category: Category)
      requires Valid()
      modifies this`latched
      ensures Valid() && View() == old(View()).(latched := old(View().latched) + {category})
    {
      hide Mask, Abs, NoStrays;
      var one := new CategorySet();
      EmptyIsClean();
      var changed := one.Insert(category);
      MaskOfOne(one.bits, category);
      InsertAdds(latched, category);
      latched := Or(latched, one.bits);
    }
  }

  lemma MaskOfOne(bits: bv32, category: Category)
    requires NoStrays(bits) && Abs(bits) == {category}
    ensures bits == Mask(category)
  {
    InsertAdds(0, category);
    EmptyIsClean();
    AbsInjective(bits, With(0, category));
    OrZero(category);
  }

  lemma EmptyIsClean()
    ensures NoStrays(0) && Abs(0) == {}
  {
  }

  lemma OrZero(category: Category)
    ensures With(0, category) == Mask(category)
  {
  }
}
