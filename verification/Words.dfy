/** Machine words and tagged values (runtime/value.c, runtime/psl_runtime.h). */
module Words {
  import opened Bits

  type Word = w: int | 0 <= w < 0x1_0000_0000_0000_0000
  type SignedWord = n: int | -0x8000_0000_0000_0000 <= n < 0x8000_0000_0000_0000
  type Byte = b: int | 0 <= b < 256

  const WORD_SPAN := 0x1_0000_0000_0000_0000
  const SIZE_MAX: Word := 0xFFFF_FFFF_FFFF_FFFF
  const NIL: Word := 2
  const TRUE: Word := 6
  const FIXNUM_BOUND := 0x4000_0000_0000_0000

  /** The result of a call that may call abort(). */
  datatype Outcome<+T> = Done(value: T) | Aborted {
    predicate IsFailure() {
      Aborted?
    }

    function PropagateFailure<U>(): Outcome<U>
      requires Aborted?
    {
      Aborted
    }

    function Extract(): T
      requires Done?
    {
      value
    }
  }

  datatype Option<+T> = None | Some(value: T)

  /** Two's-complement conversions between signed and unsigned 64-bit words. */
  function Unsigned(n: int): (w: Word) {
    n % WORD_SPAN
  }

  /** A word that the collector is willing to look up: aligned and not null. */
  predicate HeapTagged(w: Word) {
    w != 0 && And(w, 7) == 0
  }

  lemma HeapTaggedIsAligned(w: Word)
    ensures HeapTagged(w) <==> w != 0 && w % 8 == 0
  {
    AndLowMask(w, 3);
    Pow2Values();
  }

  predicate IsFixnum(w: Word) {
    And(w, 1) != 0
  }

  lemma IsFixnumIsOdd(w: Word)
    ensures IsFixnum(w) <==> w % 2 == 1
  {
    AndLowMask(w, 1);
    Pow2Values();
  }

  lemma SignMask(w: Word)
    ensures And(w, 0x7FFF_FFFF_FFFF_FFFF) == w % 0x8000_0000_0000_0000
  {
    AndLowMask(w, 63);
    Pow2Values();
  }

  /** number << 1 | 1; the shifted word is even, so the disjunction adds one. */
  function Box(number: SignedWord): Outcome<Word> {
    if number < -FIXNUM_BOUND || number >= FIXNUM_BOUND then Aborted
    else Done((Unsigned(number) * 2) % WORD_SPAN + 1)
  }

  function Unbox(w: Word): Outcome<SignedWord> {
    if !IsFixnum(w) then Aborted
    else
      var payload := w / 2;
      if payload < FIXNUM_BOUND then Done(payload)
      else
        var complement := SIZE_MAX - payload;
        SignMask(complement);
        Done(-1 - And(complement, 0x7FFF_FFFF_FFFF_FFFF))
  }

  lemma UnboxValue(w: Word)
    ensures Unbox(w) == if w % 2 == 0 then Aborted
                        else if w / 2 < FIXNUM_BOUND then Done(w / 2)
                        else Done(w / 2 - 2 * FIXNUM_BOUND)
  {
    IsFixnumIsOdd(w);
    SignMask(SIZE_MAX - w / 2);
  }

  lemma BoxValue(n: SignedWord)
    ensures Box(n) == if n < -FIXNUM_BOUND || n >= FIXNUM_BOUND then Aborted
                      else if n >= 0 then Done(2 * n + 1)
                      else Done(2 * n + WORD_SPAN + 1)
  {
    if -FIXNUM_BOUND <= n < FIXNUM_BOUND {
      assert Unsigned(n) == if n >= 0 then n else n + WORD_SPAN;
      if n < 0 {
        assert Unsigned(n) * 2 == WORD_SPAN + (2 * n + WORD_SPAN);
      }
    }
  }

  /** Boxing and unboxing are inverse, on exactly the 63-bit integers and the odd words. */
  lemma BoxUnbox(n: SignedWord, w: Word)
    ensures Box(n).Done? <==> -FIXNUM_BOUND <= n < FIXNUM_BOUND
    ensures Unbox(w).Done? <==> w % 2 == 1
    ensures Box(n) == Done(w) <==> Unbox(w) == Done(n)
  {
    hide Box, Unbox, And;
    BoxValue(n);
    UnboxValue(w);
  }

  /** NIL, T, fixnums and heap addresses never overlap. */
  lemma TagsAreDisjoint(n: SignedWord, w: Word)
    requires HeapTagged(w)
    ensures w != NIL && w != TRUE && !IsFixnum(w) && Box(n) != Done(w)
    ensures !HeapTagged(NIL) && !HeapTagged(TRUE) && !IsFixnum(NIL) && !IsFixnum(TRUE) && NIL != TRUE
    ensures Box(n).Done? ==> IsFixnum(Box(n).value) && !HeapTagged(Box(n).value)
  {
    HeapTaggedIsAligned(w);
    HeapTaggedIsAligned(NIL);
    HeapTaggedIsAligned(TRUE);
    IsFixnumIsOdd(w);
    IsFixnumIsOdd(NIL);
    IsFixnumIsOdd(TRUE);
    if Box(n).Done? {
      HeapTaggedIsAligned(Box(n).value);
      IsFixnumIsOdd(Box(n).value);
    }
  }
}
