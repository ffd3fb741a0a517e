/**
  The keyboard teleoperation controller: it remembers when each of six keys
  was last pressed and turns the keys pressed in the last 100 ms into a
  velocity command. Times are milliseconds since the epoch; the system clock
  is read by the caller and passed in as `now`.
*/
module Keyboard {
  import opened Wrappers

  /** A three-component vector of an ignition `Twist`. */
  datatype Vector3 = Vector3(x: real, y: real, z: real)

  /** `ignition::msgs::Twist`: a linear and an angular velocity. */
  datatype Twist = Twist(linear: Vector3, angular: Vector3)

  /** The six keys the controller listens to. */
  datatype Key = Left | Right | Forward | Back | Clockwise | Counterclockwise

  /** The six last-press times, in milliseconds since the epoch. */
  datatype PressTimes = PressTimes(back: int, clockwise: int, counterclockwise: int,
                                   forward: int, left: int, right: int)
  {
    function Get(k: Key): int {
      match k
      case Left => left
      case Right => right
      case Forward => forward
      case Back => back
      case Clockwise => clockwise
      case Counterclockwise => counterclockwise
    }
  }

  /** How long ago a press may be and still count. */
  const Threshold := 100
  /** The speed of every translation key. */
  const LinearSpeed := 0.5
  /** The declared turning speed. */
  const AngularSpeed := 0.25

  const Still := Twist(Vector3(0.0, 0.0, 0.0), Vector3(0.0, 0.0, 0.0))

  /** Every press time at the epoch, as a new controller starts. */
  const Idle := PressTimes(0, 0, 0, 0, 0, 0)

  /**
    The key a keypress message names: its data is narrowed to a `char`, which
    keeps the low eight bits, and only A, S, W, D, Q and E are keys.
  */
  function KeyOfData(data: int): (r: Option<Key>)
    ensures r.Some? <==> data % 256 in {'A' as int, 'S' as int, 'W' as int, 'D' as int, 'Q' as int, 'E' as int}
  {
    var c := (data % 256) as char;
    if c == 'A' then Some(Left)
    else if c == 'S' then Some(Back)
    else if c == 'W' then Some(Forward)
    else if c == 'D' then Some(Right)
    else if c == 'Q' then Some(Counterclockwise)
    else if c == 'E' then Some(Clockwise)
    else None
  }

  /** The character code that selects each key. */
  function KeyCode(k: Key): int {
    match k
    case Left => 'A' as int
    case Right => 'D' as int
    case Forward => 'W' as int
    case Back => 'S' as int
    case Clockwise => 'E' as int
    case Counterclockwise => 'Q' as int
  }

  /** Each key's code selects that key, and so does the code plus any multiple of 256. */
  lemma KeyCodeSelects(k: Key, wraps: int)
    ensures KeyOfData(KeyCode(k) + 256 * wraps) == Some(k)
  {
    assert (KeyCode(k) + 256 * wraps) % 256 == KeyCode(k);
  }

  /**
    The press times after a keypress with `data` at `now`: the named key's
    time becomes `now` and every other time stays; any other character leaves
    all six as they were.
  */
  function Press(t: PressTimes, data: int, now: int): (r: PressTimes)
    ensures forall k :: r.Get(k) == if KeyOfData(data) == Some(k) then now else t.Get(k)
  {
    match KeyOfData(data)
    case None => t
    case Some(Left) => t.(left := now)
    case Some(Back) => t.(back := now)
    case Some(Forward) => t.(forward := now)
    case Some(Right) => t.(right := now)
    case Some(Counterclockwise) => t.(counterclockwise := now)
    case Some(Clockwise) => t.(clockwise := now)
  }

  /** A character that is not a key changes no time. */
  lemma OtherCharacterIgnored(t: PressTimes, data: int, now: int)
    requires KeyOfData(data).None?
    ensures Press(t, data, now) == t
  {
    var r := Press(t, data, now);
    assert r.left == r.Get(Left) && r.right == r.Get(Right) && r.forward == r.Get(Forward);
    assert r.back == r.Get(Back) && r.clockwise == r.Get(Clockwise);
    assert r.counterclockwise == r.Get(Counterclockwise);
  }

  /** A press at `pressed` still counts at `now`. */
  predicate Recent(now: int, pressed: int) {
    now - pressed <= Threshold
  }

  /** The velocity each key stands for on its own, turning at `turn`. */
  function KeyVelocity(k: Key, turn: real): Twist {
    match k
    case Left => Twist(Vector3(0.0, LinearSpeed, 0.0), Vector3(0.0, 0.0, 0.0))
    case Right => Twist(Vector3(0.0, -LinearSpeed, 0.0), Vector3(0.0, 0.0, 0.0))
    case Forward => Twist(Vector3(0.0, 0.0, LinearSpeed), Vector3(0.0, 0.0, 0.0))
    case Back => Twist(Vector3(0.0, 0.0, -LinearSpeed), Vector3(0.0, 0.0, 0.0))
    case Clockwise => Twist(Vector3(0.0, 0.0, 0.0), Vector3(turn, 0.0, 0.0))
    case Counterclockwise => Twist(Vector3(0.0, 0.0, 0.0), Vector3(-turn, 0.0, 0.0))
  }

  function AddVector(a: Vector3, b: Vector3): Vector3 {
    Vector3(a.x + b.x, a.y + b.y, a.z + b.z)
  }

  function Add(a: Twist, b: Twist): Twist {
    Twist(AddVector(a.linear, b.linear), AddVector(a.angular, b.angular))
  }

  /** What key `k` adds at `now`: its velocity when pressed at most 100 ms ago, nothing otherwise. */
  function Contribution(t: PressTimes, now: int, k: Key, turn: real): Twist {
    if Recent(now, t.Get(k)) then KeyVelocity(k, turn) else Still
  }

  /**
    The command at `now`: the contributions of all six keys added, in the
    order they are checked, turning at `turn`.
  */
  function Command(t: PressTimes, now: int, turn: real): Twist {
    Add(Contribution(t, now, Left, turn),
    Add(Contribution(t, now, Right, turn),
    Add(Contribution(t, now, Forward, turn),
    Add(Contribution(t, now, Back, turn),
    Add(Contribution(t, now, Clockwise, turn),
        Contribution(t, now, Counterclockwise, turn))))))
  }

  /**
    A key moves the robot exactly when it was pressed at most 100 ms ago
    (for the rotation keys, as long as the turning speed is not zero).
  */
  lemma ContributesExactly(t: PressTimes, now: int, k: Key, turn: real)
    requires turn != 0.0
    ensures Contribution(t, now, k, turn) != Still <==> now - t.Get(k) <= Threshold
  {
    if Recent(now, t.Get(k)) {
      assert KeyVelocity(k, turn) != Still by {
        match k
        case Clockwise => assert KeyVelocity(k, turn).angular.x == turn;
        case Counterclockwise => assert KeyVelocity(k, turn).angular.x == -turn;
        case _ =>
      }
    }
  }

  /** What a key adds to its component when it counts, and nothing when it does not. */
  function Part(counts: bool, speed: real): real {
    if counts then speed else 0.0
  }

  /**
    The command component by component: left minus right on linear y,
    forward minus back on linear z, clockwise minus counterclockwise on
    angular x, and nothing on the other three.
  */
  lemma CommandComponents(t: PressTimes, now: int, turn: real)
    ensures Command(t, now, turn)
            == Twist(Vector3(0.0,
                             Part(Recent(now, t.left), LinearSpeed) - Part(Recent(now, t.right), LinearSpeed),
                             Part(Recent(now, t.forward), LinearSpeed) - Part(Recent(now, t.back), LinearSpeed)),
                     Vector3(Part(Recent(now, t.clockwise), turn) - Part(Recent(now, t.counterclockwise), turn),
                             0.0, 0.0))
  {
    ContributionParts(t, now, turn);
    var zero := Vector3(0.0, 0.0, 0.0);
    var rest := Add(Contribution(t, now, Clockwise, turn), Contribution(t, now, Counterclockwise, turn));
    assert rest == Twist(zero, Vector3(Part(Recent(now, t.clockwise), turn) - Part(Recent(now, t.counterclockwise), turn), 0.0, 0.0));
  }

  /** Each key's contribution as a single component. */
  lemma ContributionParts(t: PressTimes, now: int, turn: real)
    ensures Contribution(t, now, Left, turn) == Twist(Vector3(0.0, Part(Recent(now, t.left), LinearSpeed), 0.0), Vector3(0.0, 0.0, 0.0))
    ensures Contribution(t, now, Right, turn) == Twist(Vector3(0.0, -Part(Recent(now, t.right), LinearSpeed), 0.0), Vector3(0.0, 0.0, 0.0))
    ensures Contribution(t, now, Forward, turn) == Twist(Vector3(0.0, 0.0, Part(Recent(now, t.forward), LinearSpeed)), Vector3(0.0, 0.0, 0.0))
    ensures Contribution(t, now, Back, turn) == Twist(Vector3(0.0, 0.0, -Part(Recent(now, t.back), LinearSpeed)), Vector3(0.0, 0.0, 0.0))
    ensures Contribution(t, now, Clockwise, turn) == Twist(Vector3(0.0, 0.0, 0.0), Vector3(Part(Recent(now, t.clockwise), turn), 0.0, 0.0))
    ensures Contribution(t, now, Counterclockwise, turn) == Twist(Vector3(0.0, 0.0, 0.0), Vector3(-Part(Recent(now, t.counterclockwise), turn), 0.0, 0.0))
  {
  }

  /** Three running sums that match the components make the command. */
  lemma CommandFromComponents(t: PressTimes, now: int, turn: real, y: real, z: real, roll: real)
    requires y == Part(Recent(now, t.left), LinearSpeed) - Part(Recent(now, t.right), LinearSpeed)
    requires z == Part(Recent(now, t.forward), LinearSpeed) - Part(Recent(now, t.back), LinearSpeed)
    requires roll == Part(Recent(now, t.clockwise), turn) - Part(Recent(now, t.counterclockwise), turn)
    ensures Twist(Vector3(0.0, y, z), Vector3(roll, 0.0, 0.0)) == Command(t, now, turn)
  {
    CommandComponents(t, now, turn);
  }

  /** A controller nobody has pressed yet commands no motion, whatever the time. */
  lemma IdleIsStill(now: int, turn: real)
    ensures Command(Idle, now, turn) == Still
  {
    CommandComponents(Idle, now, turn);
  }

  /**
    Only the three driven components move, and each only by one key's speed
    either way.
  */
  lemma CommandRange(t: PressTimes, now: int, turn: real)
    ensures var c := Command(t, now, turn);
            && c.linear.x == 0.0 && c.angular.y == 0.0 && c.angular.z == 0.0
            && c.linear.y in {-LinearSpeed, 0.0, LinearSpeed}
            && c.linear.z in {-LinearSpeed, 0.0, LinearSpeed}
            && c.angular.x in {-turn, 0.0, turn}
  {
    CommandComponents(t, now, turn);
  }

  /** Two opposite keys pressed together cancel out. */
  lemma OppositeKeysCancel(t: PressTimes, now: int, turn: real)
    ensures Recent(now, t.left) && Recent(now, t.right) ==> Command(t, now, turn).linear.y == 0.0
    ensures Recent(now, t.forward) && Recent(now, t.back) ==> Command(t, now, turn).linear.z == 0.0
    ensures Recent(now, t.clockwise) && Recent(now, t.counterclockwise)
            ==> Command(t, now, turn).angular.x == 0.0
  {
    CommandComponents(t, now, turn);
  }

  /**
    One key pressed on a controller that has been idle since more than 100 ms
    after the epoch, and asked again within 100 ms of the press: the command
    is that key's velocity alone.
  */
  lemma SingleKeyCommand(k: Key, pressed: int, now: int, turn: real)
    requires now > Threshold && 0 <= now - pressed <= Threshold
    ensures Command(Press(Idle, KeyCode(k), pressed), now, turn) == KeyVelocity(k, turn)
  {
    var t := Press(Idle, KeyCode(k), pressed);
    KeyCodeSelects(k, 0);
    assert forall j :: Recent(now, t.Get(j)) <==> j == k;
    OnlyKeyRecent(t, now, k, turn);
  }

  /** When exactly one key is recent, the command is that key's velocity. */
  lemma OnlyKeyRecent(t: PressTimes, now: int, k: Key, turn: real)
    requires forall j :: Recent(now, t.Get(j)) <==> j == k
    ensures Command(t, now, turn) == KeyVelocity(k, turn)
  {
    CommandComponents(t, now, turn);
    assert Recent(now, t.Get(k));
    assert forall j :: j != k ==> !Recent(now, t.Get(j));
    match k
    case Left => assert !Recent(now, t.right);
    case Right => assert !Recent(now, t.left);
    case Forward => assert !Recent(now, t.back);
    case Back => assert !Recent(now, t.forward);
    case Clockwise => assert !Recent(now, t.counterclockwise);
    case Counterclockwise => assert !Recent(now, t.clockwise);
  }

  /**
    The clockwise key as written: the controller turns at the translation
    speed, 0.5, where the turning speed 0.25 is meant.
  */
  lemma ClockwiseAsWritten(pressed: int, now: int)
    requires now > Threshold && 0 <= now - pressed <= Threshold
    ensures Command(Press(Idle, 'E' as int, pressed), now, LinearSpeed).angular.x == 0.5
    ensures Command(Press(Idle, 'E' as int, pressed), now, AngularSpeed).angular.x == 0.25
  {
    SingleKeyCommand(Clockwise, pressed, now, LinearSpeed);
    SingleKeyCommand(Clockwise, pressed, now, AngularSpeed);
  }

  /** `KeyboardController`: the six press times, set by key presses and read to build commands. */
  class KeyboardController {
    var backPressTime: int
    var clockwisePressTime: int
    var counterclockwisePressTime: int
    var forwardPressTime: int
    var leftPressTime: int
    var rightPressTime: int

    function Times(): PressTimes
      reads this
    {
      PressTimes(backPressTime, clockwisePressTime, counterclockwisePressTime,
                 forwardPressTime, leftPressTime, rightPressTime)
    }

    /** Every time starts at the epoch, so nothing drives at start-up. */
    constructor ()
      ensures Times() == Idle
    {
      backPressTime := 0;
      clockwisePressTime := 0;
      counterclockwisePressTime := 0;
      forwardPressTime := 0;
      leftPressTime := 0;
      rightPressTime := 0;
    }

    /** `registerKeypress`: the key the message names, if any, was pressed at `now`. */
    method RegisterKeypress(data: int, now: int)
      modifies this
      ensures Times() == Press(old(Times()), data, now)
    {
      var command := (data % 256) as char;
      if command == 'A' {
        leftPressTime := now;
      } else if command == 'S' {
        backPressTime := now;
      } else if command == 'W' {
        forwardPressTime := now;
      } else if command == 'D' {
        rightPressTime := now;
      } else if command == 'Q' {
        counterclockwisePressTime := now;
      } else if command == 'E' {
        clockwisePressTime := now;
      }
    }

    /**
      `createMessage` as written: the recent keys' velocities added up in
      turn, the rotation keys adding the translation speed.
    */
    method CreateMessageAsWritten(now: int) returns (msg: Twist)
      ensures msg == Command(Times(), now, LinearSpeed)
    {
      msg := Accumulate(now, LinearSpeed);
    }

    /** `createMessage` with the rotation keys adding the turning speed. */
    method CreateMessage(now: int) returns (msg: Twist)
      ensures msg == Command(Times(), now, AngularSpeed)
    {
      msg := Accumulate(now, AngularSpeed);
    }

    /** The body of `createMessage`, turning at `turn`. */
    method Accumulate(now: int, turn: real) returns (msg: Twist)
      ensures msg == Command(Times(), now, turn)
    {
      ghost var t := Times();
      var currentX := 0.0;
      var currentY := 0.0;
      var currentT := 0.0;
      if now - leftPressTime <= Threshold {
        currentY := currentY + LinearSpeed;
      }
      if now - rightPressTime <= Threshold {
        currentY := currentY - LinearSpeed;
      }
      assert currentY == Part(Recent(now, t.left), LinearSpeed) - Part(Recent(now, t.right), LinearSpeed);
      if now - forwardPressTime <= Threshold {
        currentX := currentX + LinearSpeed;
      }
      if now - backPressTime <= Threshold {
        currentX := currentX - LinearSpeed;
      }
      assert currentX == Part(Recent(now, t.forward), LinearSpeed) - Part(Recent(now, t.back), LinearSpeed);
      if now - clockwisePressTime <= Threshold {
        currentT := currentT + turn;
      }
      if now - counterclockwisePressTime <= Threshold {
        currentT := currentT - turn;
      }
      assert currentT == Part(Recent(now, t.clockwise), turn) - Part(Recent(now, t.counterclockwise), turn);
      msg := Twist(Vector3(0.0, currentY, currentX), Vector3(currentT, 0.0, 0.0));
      CommandFromComponents(t, now, turn, currentY, currentX, currentT);
    }
  }
}
