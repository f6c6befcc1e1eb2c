/** The other end of the link: a phone that applies a layout of its own to the
    presses it registers, dead keys included. */
module Phone {
  import opened Wrappers
  import opened Hid

  /** What one key at one level means on this phone. */
  datatype Meaning = Silent | Types(c: char) | Dead(accent: char)

  /** A dead key that has been struck and is waiting for what follows it. */
  datatype Pending = Clear | Waiting(dead: Stroke, accent: char)

  /** What the phone shows, and whether an accent is still owed. */
  datatype Screen = Screen(text: string, pending: Pending)

  const BLANK: Screen := Screen([], Clear)

  const SPACE: Stroke := Stroke(0, 0x2C)

  /** An arbitrary layout: every key at every level, and which dead keys compose
      with which. */
  datatype Layout = Layout(
    meaning: Stroke -> Meaning,
    compose: (Stroke, Stroke) -> Option<char>)
  {
    /** One press.  An accent is settled by the space bar, composed by a base that
        takes it, and otherwise comes through ahead of the base. */
    function Strike(screen: Screen, s: Stroke): Screen {
      match screen.pending
      case Clear => (
        match meaning(s)
        case Silent => screen
        case Types(c) => screen.(text := screen.text + [c])
        case Dead(accent) => screen.(pending := Waiting(s, accent))
      )
      case Waiting(dead, accent) =>
        if s == SPACE then Screen(screen.text + [accent], Clear)
        else match meaning(s)
          case Silent => screen
          case Types(c) => (
            match compose(dead, s)
            case Some(composed) => Screen(screen.text + [composed], Clear)
            case None => Screen(screen.text + [accent, c], Clear)
          )
          case Dead(next) => Screen(screen.text + [accent], Waiting(s, next))
    }

    function StrikeAll(screen: Screen, strokes: seq<Stroke>): Screen
      decreases strokes
    {
      if strokes == [] then screen else StrikeAll(Strike(screen, strokes[0]), strokes[1..])
    }

    lemma {:induction false} StrikeConcat(screen: Screen, a: seq<Stroke>, b: seq<Stroke>)
      ensures StrikeAll(screen, a + b) == StrikeAll(StrikeAll(screen, a), b)
      decreases a
    {
      if a == [] {
        assert a + b == b;
      } else {
        assert (a + b)[1..] == a[1..] + b;
        StrikeConcat(Strike(screen, a[0]), a[1..], b);
      }
    }

    lemma StrikeOne(screen: Screen, s: Stroke)
      ensures StrikeAll(screen, [s]) == Strike(screen, s)
    {
      assert StrikeAll(Strike(screen, s), []) == Strike(screen, s);
      assert [s][1..] == [];
    }

    lemma StrikeTwo(screen: Screen, s: Stroke, t: Stroke)
      ensures StrikeAll(screen, [s, t]) == Strike(Strike(screen, s), t)
    {
      assert [s, t] == [s] + [t];
      StrikeConcat(screen, [s], [t]);
      StrikeOne(screen, s);
      StrikeOne(Strike(screen, s), t);
    }
  }
}
