/**
 * Shared vocabulary of the game server: optional values, players bound to a
 * connection, the identity contract's user record and the kinds of game the
 * game center can register.
 */
module Base {

  datatype Option<+T> = None | Some(value: T)

  /** Identity of one websocket connection (a UUID string in the server). */
  type ConnId = string

  /** An authenticated player, bound to the connection it logged in on. */
  datatype Player = Player(id: string, name: string, client: ConnId)

  /** What the identity service returns for a verified token. */
  datatype UserData = UserData(id: string, name: string)

  /** Reply of the identity service's VerifyToken: the user data or an error. */
  datatype VerifyReply = Verified(data: UserData) | VerifyFailed(error: string)

  const DiceGameId: int := 1000
  const WheelGameId: int := 1001

  /**
   * The games behind the game interface (ID, AddPlayer, RemovePlayer, Play):
   * the single-player dice game and the timed multiplayer wheel game.
   */
  datatype GameKind = DiceGame | WheelGame

  function GameIdOf(g: GameKind): (id: int)
    ensures id == DiceGameId <==> g == DiceGame
    ensures id == WheelGameId <==> g == WheelGame
  {
    match g
    case DiceGame => DiceGameId
    case WheelGame => WheelGameId
  }

  /** The elements of a sequence, as a set. */
  function Elems<T>(s: seq<T>): set<T>
  {
    set x | x in s
  }

  /** No element occurs twice. */
  ghost predicate Distinct<T>(s: seq<T>)
  {
    forall i, j | 0 <= i < j < |s| :: s[i] != s[j]
  }

  /** Appending a new element keeps a sequence free of repeats. */
  lemma DistinctAppend<T>(s: seq<T>, x: T)
    requires Distinct(s) && x !in s
    ensures Distinct(s + [x]) && Elems(s + [x]) == Elems(s) + {x}
  {
  }

  /** Moving one element from the pending set to the visited set keeps them a partition. */
  lemma MoveOne<T>(done: set<T>, rest: set<T>, x: T)
    requires done !! rest && x in rest
    ensures (done + {x}) !! (rest - {x}) && (done + {x}) + (rest - {x}) == done + rest
    ensures multiset(done + {x}) == multiset(done) + multiset{x}
  {
  }
}
