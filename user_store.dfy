/**
 * The lifetime statistics store (store/user-store.ts): the local player's
 * profile and counters accumulated over finished games.
 */
module UserStats {
  import opened Wrappers
  import opened GameTypes

  const DefaultPlayer := Player(
    id := "0",
    name := "Player",
    avatar := "https://images.unsplash.com/photo-1511367461989-f85a21fda167?w=100&h=100&fit=crop",
    score := 0,
    correctAnswers := 0,
    totalAnswered := 0,
    isActive := true,
    isOnline := true)

  /** A partial player record: the fields to override. */
  datatype PlayerUpdates = PlayerUpdates(
    id: Option<string>,
    name: Option<string>,
    avatar: Option<string>,
    score: Option<int>,
    correctAnswers: Option<int>,
    totalAnswered: Option<int>,
    isActive: Option<bool>,
    isOnline: Option<bool>)

  const NoUpdates := PlayerUpdates(None, None, None, None, None, None, None, None)

  function Or<T>(o: Option<T>, default: T): T
  {
    if o.Some? then o.value else default
  }

  /** `{...player, ...updates}`: each supplied field overrides, every other field is kept. */
  function ApplyUpdates(p: Player, u: PlayerUpdates): (r: Player)
    ensures u.id.Some? ==> r.id == u.id.value
    ensures u.id.None? ==> r.id == p.id
    ensures u.name.Some? ==> r.name == u.name.value
    ensures u.name.None? ==> r.name == p.name
    ensures u.avatar.Some? ==> r.avatar == u.avatar.value
    ensures u.avatar.None? ==> r.avatar == p.avatar
    ensures u.score.Some? ==> r.score == u.score.value
    ensures u.score.None? ==> r.score == p.score
    ensures u.correctAnswers.Some? ==> r.correctAnswers == u.correctAnswers.value
    ensures u.correctAnswers.None? ==> r.correctAnswers == p.correctAnswers
    ensures u.totalAnswered.Some? ==> r.totalAnswered == u.totalAnswered.value
    ensures u.totalAnswered.None? ==> r.totalAnswered == p.totalAnswered
    ensures u.isActive.Some? ==> r.isActive == u.isActive.value
    ensures u.isActive.None? ==> r.isActive == p.isActive
    ensures u.isOnline.Some? ==> r.isOnline == u.isOnline.value
    ensures u.isOnline.None? ==> r.isOnline == p.isOnline
  {
    Player(Or(u.id, p.id), Or(u.name, p.name), Or(u.avatar, p.avatar), Or(u.score, p.score),
           Or(u.correctAnswers, p.correctAnswers), Or(u.totalAnswered, p.totalAnswered),
           Or(u.isActive, p.isActive), Or(u.isOnline, p.isOnline))
  }

  /** Two spreads in a row, as one: the later update's fields win. */
  function Combine(u1: PlayerUpdates, u2: PlayerUpdates): PlayerUpdates
  {
    PlayerUpdates(
      if u2.id.Some? then u2.id else u1.id,
      if u2.name.Some? then u2.name else u1.name,
      if u2.avatar.Some? then u2.avatar else u1.avatar,
      if u2.score.Some? then u2.score else u1.score,
      if u2.correctAnswers.Some? then u2.correctAnswers else u1.correctAnswers,
      if u2.totalAnswered.Some? then u2.totalAnswered else u1.totalAnswered,
      if u2.isActive.Some? then u2.isActive else u1.isActive,
      if u2.isOnline.Some? then u2.isOnline else u1.isOnline)
  }

  lemma UpdateWithNothing(p: Player)
    ensures ApplyUpdates(p, NoUpdates) == p
  {
  }

  /** Applying the same update twice is the same as applying it once. */
  lemma UpdateIdempotent(p: Player, u: PlayerUpdates)
    ensures ApplyUpdates(ApplyUpdates(p, u), u) == ApplyUpdates(p, u)
  {
  }

  lemma UpdatesCompose(p: Player, u1: PlayerUpdates, u2: PlayerUpdates)
    ensures ApplyUpdates(ApplyUpdates(p, u1), u2) == ApplyUpdates(p, Combine(u1, u2))
  {
  }

  class UserStore {
    var player: Player
    var gamesPlayed: nat
    var highScore: int
    var totalScore: int
    var totalCorrect: int
    var totalQuestions: int
    var totalWinnings: int

    ghost predicate Valid()
      reads this
    {
      highScore >= 0
    }

    constructor ()
      ensures Valid() && player == DefaultPlayer && gamesPlayed == 0 && highScore == 0
      ensures totalScore == 0 && totalCorrect == 0 && totalQuestions == 0 && totalWinnings == 0
    {
      player := DefaultPlayer;
      gamesPlayed, highScore, totalScore := 0, 0, 0;
      totalCorrect, totalQuestions, totalWinnings := 0, 0, 0;
    }

    method UpdatePlayer(updates: PlayerUpdates)
      modifies this`player
      ensures player == ApplyUpdates(old(player), updates)
    {
      player := ApplyUpdates(player, updates);
    }

    /** Folds one finished game into the counters and the player's aggregates. */
    method UpdateStats(score: int, correct: int, total: int, winnings: int := 0)
      requires Valid()
      modifies this
      ensures Valid()
      ensures gamesPlayed == old(gamesPlayed) + 1
      ensures highScore >= old(highScore) && highScore >= score
      ensures highScore == old(highScore) || highScore == score
      ensures totalScore == old(totalScore) + score && totalCorrect == old(totalCorrect) + correct
      ensures totalQuestions == old(totalQuestions) + total && totalWinnings == old(totalWinnings) + winnings
      ensures player == old(player).(score := old(player.score) + score,
                                     correctAnswers := old(player.correctAnswers) + correct,
                                     totalAnswered := old(player.totalAnswered) + total)
    {
      gamesPlayed := gamesPlayed + 1;
      highScore := if highScore < score then score else highScore;
      totalScore := totalScore + score;
      totalCorrect := totalCorrect + correct;
      totalQuestions := totalQuestions + total;
      totalWinnings := totalWinnings + winnings;
      player := player.(score := player.score + score,
                        correctAnswers := player.correctAnswers + correct,
                        totalAnswered := player.totalAnswered + total);
    }

    method ResetStats()
      modifies this
      ensures Valid() && player == DefaultPlayer && gamesPlayed == 0 && highScore == 0
      ensures totalScore == 0 && totalCorrect == 0 && totalQuestions == 0 && totalWinnings == 0
    {
      gamesPlayed, highScore, totalScore := 0, 0, 0;
      totalCorrect, totalQuestions, totalWinnings := 0, 0, 0;
      player := DefaultPlayer;
    }
  }
}
