/**
 * Model of www/js/components/keyboard-effect.js: the typewriter animation of
 * the hero heading.
 *
 * At any moment exactly one timer of the effect is pending: the `setTimeout`
 * that re-runs `typeH1`, the one that re-runs `typeH2`, or, once typing is
 * over, the 500 ms `setInterval` that blinks the cursor.  The state records
 * which one is due, and one firing of it is one `Tick`.  The random delays are
 * not part of the state.
 */
module KeyboardEffect {

  const H1Text := "HAGUE HACKERS"
  const H2Text := "Making the digital world safer through education"

  /** The timer that fires next. */
  datatype Timer = TypeH1Due | TypeH2Due | BlinkDue

  /** The cursor span appended to h2: absent, or present with its `style.visibility`. */
  datatype Cursor = NoCursor | Cursor(visibility: string)

  /**
   * The hero heading: the text of h1 and of h2, the two character indices
   * (`currentH1CharIndex`, `currentH2CharIndex`), the cursor and the pending timer.
   */
  datatype Hero = Hero(h1: string, h2: string, i: nat, j: nat, cursor: Cursor, due: Timer)

  /** What every reachable state satisfies. */
  ghost predicate Valid(s: Hero) {
    && s.i <= |H1Text| && s.h1 == H1Text[..s.i]
    && s.j <= |H2Text| && s.h2 == H2Text[..s.j]
    && (s.j > 0 ==> s.i == |H1Text|)
    && (s.due == TypeH1Due ==> s.j == 0)
    && (s.due == TypeH2Due ==> s.i == |H1Text|)
    && (s.cursor.Cursor? <==> s.due == BlinkDue)
    && (s.cursor.Cursor? ==> s.j == |H2Text| && s.cursor.visibility in {"", "visible", "hidden"})
  }

  /** The state right after both headings are cleared, before `typeH1` first runs. */
  const Cleared := Hero("", "", 0, 0, NoCursor, TypeH1Due)

  /** One blink: "visible" becomes "hidden"; any other value, "" included, becomes "visible". */
  function Blink(v: string): (r: string)
    ensures r == "hidden" <==> v == "visible"
    ensures r == "visible" <==> v != "visible"
  {
    if v == "visible" then "hidden" else "visible"
  }

  /** `startCursorBlinking`: append the cursor span, whose visibility starts unset, and start the interval. */
  function AfterCursorStart(s: Hero): Hero {
    s.(cursor := Cursor(""), due := BlinkDue)
  }

  /** `typeH2`: type the next h2 character and re-arm, or start the cursor when h2 is complete. */
  function AfterTypeH2(s: Hero): Hero {
    if s.j < |H2Text| then s.(h2 := s.h2 + [H2Text[s.j]], j := s.j + 1, due := TypeH2Due)
    else AfterCursorStart(s)
  }

  /** `typeH1`: type the next h1 character and re-arm, or hand over to `typeH2` when h1 is complete. */
  function AfterTypeH1(s: Hero): Hero {
    if s.i < |H1Text| then s.(h1 := s.h1 + [H1Text[s.i]], i := s.i + 1, due := TypeH1Due)
    else AfterTypeH2(s)
  }

  /** One tick of the blink interval. */
  function AfterBlink(s: Hero): Hero {
    match s.cursor
    case Cursor(v) => s.(cursor := Cursor(Blink(v)))
    case NoCursor => s
  }

  /** The firing of whichever timer is due. */
  function Step(s: Hero): (r: Hero)
    requires Valid(s)
    ensures Valid(r)
    ensures r.h1 == s.h1 || (s.i < |H1Text| && r.h1 == s.h1 + [H1Text[s.i]])
    ensures r.h2 == s.h2 || (s.j < |H2Text| && r.h2 == s.h2 + [H2Text[s.j]])
    ensures s.cursor.Cursor? ==> r.cursor == Cursor(Blink(s.cursor.visibility))
  {
    match s.due
    case TypeH1Due => AfterTypeH1(s)
    case TypeH2Due => AfterTypeH2(s)
    case BlinkDue => AfterBlink(s)
  }

  /** `setupKeyboardEffect`: clear both headings, then run `typeH1` once synchronously. */
  function Setup(h1Before: string, h2Before: string): (r: Hero)
    ensures Valid(r) && r.h1 == [H1Text[0]] && r.h2 == "" && r.cursor == NoCursor
    ensures r == Step(Cleared)
  {
    AfterTypeH1(Hero("", "", 0, 0, NoCursor, TypeH1Due))
  }

  /** The state after `n` timer firings from `s`. */
  function Run(s: Hero, n: nat): (r: Hero)
    requires Valid(s)
    ensures Valid(r)
  {
    if n == 0 then s else Step(Run(s, n - 1))
  }

  /**
   * An independent description of the state after `n` firings from `Cleared`
   * (setup itself performs the first one): h1 is typed first, then h2, then
   * the cursor appears with unset visibility and alternates from there.
   */
  function Typed(n: nat): Hero {
    var l1, l2 := |H1Text|, |H2Text|;
    if n <= l1 then Hero(H1Text[..n], "", n, 0, NoCursor, TypeH1Due)
    else if n <= l1 + l2 then Hero(H1Text, H2Text[..n - l1], l1, n - l1, NoCursor, TypeH2Due)
    else Hero(H1Text, H2Text, l1, l2,
              Cursor(if n == l1 + l2 + 1 then "" else if (n - l1 - l2) % 2 == 0 then "visible" else "hidden"),
              BlinkDue)
  }

  /** While h1 is being typed, one firing moves `Typed` one character on. */
  lemma StepTypingH1(n: nat)
    requires n < |H1Text|
    ensures Valid(Typed(n)) && Step(Typed(n)) == Typed(n + 1)
  {
    assert H1Text[..n] + [H1Text[n]] == H1Text[..n + 1];
  }

  /** The firing that finds h1 complete types the first h2 character. */
  lemma StepH1ToH2()
    ensures Valid(Typed(|H1Text|)) && Step(Typed(|H1Text|)) == Typed(|H1Text| + 1)
  {
    assert H1Text[..|H1Text|] == H1Text;
    assert H2Text[..1] == [H2Text[0]];
  }

  /** While h2 is being typed, one firing moves `Typed` one character on. */
  lemma StepTypingH2(n: nat)
    requires |H1Text| < n < |H1Text| + |H2Text|
    ensures Valid(Typed(n)) && Step(Typed(n)) == Typed(n + 1)
  {
    var k := n - |H1Text|;
    assert H2Text[..k] + [H2Text[k]] == H2Text[..k + 1];
  }

  /** The firing that finds h2 complete appends the cursor. */
  lemma StepStartsCursor()
    ensures Valid(Typed(|H1Text| + |H2Text|))
    ensures Step(Typed(|H1Text| + |H2Text|)) == Typed(|H1Text| + |H2Text| + 1)
  {
    assert H2Text[..|H2Text|] == H2Text;
  }

  /** Every later firing is a blink. */
  lemma StepBlinks(n: nat)
    requires n > |H1Text| + |H2Text|
    ensures Valid(Typed(n)) && Step(Typed(n)) == Typed(n + 1)
  {
  }

  /** One firing from any state `Typed` describes leads to the next such state. */
  lemma StepMatchesTyped(m: nat)
    ensures Valid(Typed(m)) && Step(Typed(m)) == Typed(m + 1)
  {
    if m < |H1Text| {
      StepTypingH1(m);
    } else if m == |H1Text| {
      StepH1ToH2();
    } else if m < |H1Text| + |H2Text| {
      StepTypingH2(m);
    } else if m == |H1Text| + |H2Text| {
      StepStartsCursor();
    } else {
      StepBlinks(m);
    }
  }

  lemma NoFiringMatchesTyped()
    ensures Valid(Cleared) && Run(Cleared, 0) == Typed(0)
  {
    assert H1Text[..0] == "" && H2Text[..0] == "";
  }

  /** One more firing keeps a run from the cleared headings on `Typed`. */
  lemma RunStepMatchesTyped(m: nat)
    requires Run(Cleared, m) == Typed(m)
    ensures Run(Cleared, m + 1) == Typed(m + 1)
  {
    StepMatchesTyped(m);
    calc {
      Run(Cleared, m + 1);
      Step(Run(Cleared, m));
      Step(Typed(m));
      Typed(m + 1);
    }
  }

  /** Running the timers from the cleared headings follows `Typed` exactly. */
  lemma {:induction false} RunMatchesTyped(n: nat)
    ensures Run(Cleared, n) == Typed(n)
  {
    if n == 0 {
      NoFiringMatchesTyped();
    } else {
      var m := n - 1;
      RunMatchesTyped(m);
      RunStepMatchesTyped(m);
      assert n == m + 1;
    }
  }

  /** After `|h1Text| + |h2Text|` firings both headings hold their full text and no cursor exists yet. */
  lemma TypingCompletes()
    ensures Run(Cleared, |H1Text| + |H2Text|).h1 == "HAGUE HACKERS"
    ensures Run(Cleared, |H1Text| + |H2Text|).h2 == "Making the digital world safer through education"
    ensures Run(Cleared, |H1Text| + |H2Text|).cursor == NoCursor
  {
    RunMatchesTyped(|H1Text| + |H2Text|);
    assert H2Text[..|H2Text|] == H2Text;
  }

  /**
   * The cursor exists exactly after the firing that follows the last h2
   * character, so it is appended once and only to a complete h2; the blink
   * then alternates "visible" and "hidden".
   */
  lemma CursorAppearsOnceAfterTyping(n: nat)
    ensures Run(Cleared, n).cursor.Cursor? <==> n > |H1Text| + |H2Text|
    ensures Run(Cleared, n).cursor.Cursor? ==> Run(Cleared, n).h2 == H2Text
    ensures n == |H1Text| + |H2Text| + 1 ==> Run(Cleared, n).cursor == Cursor("")
    ensures n > |H1Text| + |H2Text| + 1 ==> Run(Cleared, n).cursor.visibility in {"visible", "hidden"}
  {
    RunMatchesTyped(n);
  }

  /** Before the cursor exists, h1 is complete before any h2 character is typed. */
  lemma H2StartsAfterH1(n: nat)
    ensures Run(Cleared, n).j > 0 ==> Run(Cleared, n).h1 == H1Text
  {
    RunMatchesTyped(n);
  }

  /** The two headings as the page holds them, updated in place by the timer callbacks. */
  class Typewriter {
    var h1: string
    var h2: string
    var i: nat
    var j: nat
    var cursor: Cursor
    var due: Timer

    function State(): Hero
      reads this
    {
      Hero(h1, h2, i, j, cursor, due)
    }

    /** `setupKeyboardEffect` on headings whose text was `h1Before` and `h2Before`. */
    constructor (h1Before: string, h2Before: string)
      ensures State() == Setup(h1Before, h2Before)
    {
      h1, h2 := h1Before, h2Before;
      i, j := 0, 0;
      cursor, due := NoCursor, TypeH1Due;
      new;
      h1 := "";
      h2 := "";
      TypeH1();
    }

    method TypeH1()
      modifies this
      ensures State() == AfterTypeH1(old(State()))
    {
      if i < |H1Text| {
        h1 := h1 + [H1Text[i]];
        i := i + 1;
        due := TypeH1Due;
      } else {
        TypeH2();
      }
    }

    method TypeH2()
      modifies this
      ensures State() == AfterTypeH2(old(State()))
    {
      if j < |H2Text| {
        h2 := h2 + [H2Text[j]];
        j := j + 1;
        due := TypeH2Due;
      } else {
        StartCursorBlinking();
      }
    }

    method StartCursorBlinking()
      modifies this
      ensures State() == AfterCursorStart(old(State()))
    {
      cursor := Cursor("");
      due := BlinkDue;
    }

    /** One tick of the blink interval. */
    method BlinkTick()
      modifies this
      ensures State() == AfterBlink(old(State()))
    {
      if cursor.Cursor? {
        cursor := Cursor(if cursor.visibility == "visible" then "hidden" else "visible");
      }
    }

    /** The pending timer fires. */
    method Tick()
      requires Valid(State())
      modifies this
      ensures State() == Step(old(State()))
    {
      match due
      case TypeH1Due => TypeH1();
      case TypeH2Due => TypeH2();
      case BlinkDue => BlinkTick();
    }
  }
}
