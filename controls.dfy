/** Keyboard keys and the level-triggered mapping from held keys to paddle velocities. */
module Controls {
  import opened Config

  /**
   * The keys the game reacts to. Every other key is `Other` with its key code;
   * `code` is never the code of one of the six named keys, so each physical key
   * has exactly one `Key` value.
   */
  datatype Key = W | S | Up | Down | R | Escape | Other(code: int)

  /**
   * The velocity a paddle driven by the key pair (`up`, `down`) gets for the held
   * keys: `up` is checked first, so it wins when both are held.
   */
  function PaddleVelocity(keys: set<Key>, up: Key, down: Key): (v: real)
    ensures up in keys ==> v == PaddleSpeed
    ensures up !in keys && down in keys ==> v == -PaddleSpeed
    ensures up !in keys && down !in keys ==> v == 0.0
    ensures v > 0.0 <==> up in keys
  {
    if up in keys then PaddleSpeed
    else if down in keys then -PaddleSpeed
    else 0.0
  }

  /** Player 1 (left paddle) steers with W and S. */
  function LeftVelocity(keys: set<Key>): (v: real)
    ensures W in keys ==> v == PaddleSpeed
    ensures W !in keys && S in keys ==> v == -PaddleSpeed
    ensures W !in keys && S !in keys ==> v == 0.0
  {
    PaddleVelocity(keys, W, S)
  }

  /** Player 2 (right paddle) steers with the UP and DOWN arrows. */
  function RightVelocity(keys: set<Key>): (v: real)
    ensures Up in keys ==> v == PaddleSpeed
    ensures Up !in keys && Down in keys ==> v == -PaddleSpeed
    ensures Up !in keys && Down !in keys ==> v == 0.0
  {
    PaddleVelocity(keys, Up, Down)
  }

  /** A paddle's velocity depends on its own two keys and on nothing else that is held. */
  lemma VelocityDependsOnOwnKeys(keys1: set<Key>, keys2: set<Key>, up: Key, down: Key)
    requires (up in keys1 <==> up in keys2) && (down in keys1 <==> down in keys2)
    ensures PaddleVelocity(keys1, up, down) == PaddleVelocity(keys2, up, down)
  {
  }

  /** Pressing or releasing any key other than W and S leaves player 1's velocity as it was; likewise UP and DOWN for player 2. */
  lemma OtherKeysDoNotMatter(keys: set<Key>, k: Key)
    ensures k != W && k != S ==>
      LeftVelocity(keys + {k}) == LeftVelocity(keys) && LeftVelocity(keys - {k}) == LeftVelocity(keys)
    ensures k != Up && k != Down ==>
      RightVelocity(keys + {k}) == RightVelocity(keys) && RightVelocity(keys - {k}) == RightVelocity(keys)
  {
  }
}
