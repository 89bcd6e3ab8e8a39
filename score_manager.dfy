/** The score of a run (Assets/Scripts/score_manager.cs): points accrue with
    time, a failure costs a fixed penalty floored at zero, and the best score
    ever reached is kept in the engine's persistent key-value store under
    "HighScore".

    The store (`PlayerPrefs`) is a map from keys to values that outlives the
    component; the frame time is an input. */
module Scoring {
  import opened Engine

  const HighScoreKey: string := "HighScore"

  /** `PlayerPrefs.GetFloat(key, default)`: the stored value, or `default`
      when the key was never set. */
  function Lookup(store: map<string, real>, key: string, default: real): real
  {
    if key in store then store[key] else default
  }

  /** The high score a fresh component starts from. */
  function Load(store: map<string, real>): (r: real)
    ensures HighScoreKey in store ==> r == store[HighScoreKey]
    ensures HighScoreKey !in store ==> r == 0.0
  {
    Lookup(store, HighScoreKey, 0.0)
  }

  /** The two numbers the component keeps. */
  datatype Scores = Scores(score: real, highScore: real)

  /** `Update`'s score step: the score grows by `dt * rate`, and the high
      score rises to meet it when it is passed. */
  function Accrued(s: Scores, dt: real, rate: real): (r: Scores)
    ensures r.score == s.score + dt * rate
    ensures r.highScore >= r.score && r.highScore >= s.highScore
    ensures r.highScore == s.highScore || r.highScore == r.score
    ensures r.highScore > s.highScore <==> r.score > s.highScore
  {
    var score := s.score + dt * rate;
    if score > s.highScore then Scores(score, score) else Scores(score, s.highScore)
  }

  /** The store after `Update`: written exactly when the high score rose,
      and then with the new high score. */
  function Saved(store: map<string, real>, s: Scores, dt: real, rate: real): (r: map<string, real>)
    ensures var a := Accrued(s, dt, rate);
      && (a.highScore > s.highScore ==> r == store[HighScoreKey := a.highScore])
      && (a.highScore <= s.highScore ==> r == store)
  {
    var a := Accrued(s, dt, rate);
    if a.score > s.highScore then store[HighScoreKey := a.highScore] else store
  }

  /** `ApplyPenalty`: the score drops by the penalty, but not below zero;
      the high score stays. */
  function Penalized(s: Scores, penalty: int): (r: Scores)
    ensures r.highScore == s.highScore
    ensures r.score == Max(s.score - penalty as real, 0.0)
    ensures r.score >= 0.0
  {
    var score := s.score - penalty as real;
    Scores(if score < 0.0 then 0.0 else score, s.highScore)
  }

  /** A score of 30 hit by the default penalty of 50 drops to 0. */
  lemma PenaltyFloorsAtZero()
    ensures Penalized(Scores(30.0, 120.0), 50) == Scores(0.0, 120.0)
  {
  }

  /** What can happen to the component between two reads of its state: a
      frame of `dt` seconds, or a failure. */
  datatype Event = Frame(dt: real) | Failure

  /** The component and the store after a run of events. */
  function Play(s: Scores, store: map<string, real>, rate: real, penalty: int, evs: seq<Event>): (Scores, map<string, real>)
    decreases |evs|
  {
    if evs == [] then (s, store)
    else match evs[0]
      case Frame(dt) => Play(Accrued(s, dt, rate), Saved(store, s, dt, rate), rate, penalty, evs[1..])
      case Failure => Play(Penalized(s, penalty), store, rate, penalty, evs[1..])
  }

  /** The high score never decreases, whatever happens. */
  lemma {:induction false} HighScoreNeverDecreases(s: Scores, store: map<string, real>, rate: real, penalty: int, evs: seq<Event>)
    ensures Play(s, store, rate, penalty, evs).0.highScore >= s.highScore
    decreases |evs|
  {
    if evs != [] {
      match evs[0]
      case Frame(dt) => HighScoreNeverDecreases(Accrued(s, dt, rate), Saved(store, s, dt, rate), rate, penalty, evs[1..]);
      case Failure => HighScoreNeverDecreases(Penalized(s, penalty), store, rate, penalty, evs[1..]);
    }
  }

  /** The store mirrors the high score: once the stored value equals the
      high score (as it does right after `Awake` loads it, or when nothing
      was stored and the high score is zero), it stays equal. */
  lemma {:induction false} StoreMirrorsHighScore(s: Scores, store: map<string, real>, rate: real, penalty: int, evs: seq<Event>)
    requires Load(store) == s.highScore
    ensures var (t, st) := Play(s, store, rate, penalty, evs); Load(st) == t.highScore
    decreases |evs|
  {
    if evs != [] {
      match evs[0]
      case Frame(dt) =>
        var a := Accrued(s, dt, rate);
        assert Load(Saved(store, s, dt, rate)) == a.highScore;
        StoreMirrorsHighScore(a, Saved(store, s, dt, rate), rate, penalty, evs[1..]);
      case Failure => StoreMirrorsHighScore(Penalized(s, penalty), store, rate, penalty, evs[1..]);
    }
  }

  /** The store never holds anything but the high score's history: every
      other key is left alone. */
  lemma {:induction false} OtherKeysUntouched(s: Scores, store: map<string, real>, rate: real, penalty: int, evs: seq<Event>, key: string)
    requires key != HighScoreKey
    ensures var (_, st) := Play(s, store, rate, penalty, evs);
      (key in st <==> key in store) && (key in store ==> st[key] == store[key])
    decreases |evs|
  {
    if evs != [] {
      match evs[0]
      case Frame(dt) => OtherKeysUntouched(Accrued(s, dt, rate), Saved(store, s, dt, rate), rate, penalty, evs[1..], key);
      case Failure => OtherKeysUntouched(Penalized(s, penalty), store, rate, penalty, evs[1..], key);
    }
  }

  /** With time running forward, a non-negative rate and a non-negative
      penalty, the score stays non-negative and never exceeds the high
      score. */
  lemma {:induction false} ScoreStaysInBounds(s: Scores, store: map<string, real>, rate: real, penalty: int, evs: seq<Event>)
    requires rate >= 0.0 && penalty >= 0
    requires forall i :: 0 <= i < |evs| && evs[i].Frame? ==> evs[i].dt >= 0.0
    requires 0.0 <= s.score <= s.highScore
    ensures var (t, _) := Play(s, store, rate, penalty, evs); 0.0 <= t.score <= t.highScore
    decreases |evs|
  {
    if evs != [] {
      assert forall i :: 0 <= i < |evs[1..]| && evs[1..][i].Frame? ==> evs[1..][i].dt >= 0.0 by {
        forall i | 0 <= i < |evs[1..]| ensures evs[1..][i] == evs[i + 1] { }
      }
      match evs[0]
      case Frame(dt) =>
        assert dt * rate >= 0.0;
        ScoreStaysInBounds(Accrued(s, dt, rate), Saved(store, s, dt, rate), rate, penalty, evs[1..]);
      case Failure => ScoreStaysInBounds(Penalized(s, penalty), store, rate, penalty, evs[1..]);
    }
  }

  /** `PlayerPrefs`: the persistent store, shared by whoever holds it. */
  class Prefs {
    var entries: map<string, real>

    constructor (entries: map<string, real>)
      ensures this.entries == entries
    {
      this.entries := entries;
    }

    function GetFloat(key: string, default: real): (r: real)
      reads this
      ensures key in entries ==> r == entries[key]
      ensures key !in entries ==> r == default
    {
      Lookup(entries, key, default)
    }

    method SetFloat(key: string, value: real)
      modifies this
      ensures entries == old(entries)[key := value]
    {
      entries := entries[key := value];
    }
  }

  class ScoreManager {
    const scorePerSecond: real
    const penaltyPoints: int
    const prefs: Prefs

    var score: real
    var highScore: real

    function State(): Scores
      reads this
    {
      Scores(score, highScore)
    }

    /** `Awake`: the score starts at zero and the high score is loaded from
        the store, zero when nothing was stored yet. */
    constructor (scorePerSecond: real, penaltyPoints: int, prefs: Prefs)
      ensures this.scorePerSecond == scorePerSecond && this.penaltyPoints == penaltyPoints
      ensures this.prefs == prefs
      ensures State() == Scores(0.0, Load(prefs.entries))
    {
      this.scorePerSecond := scorePerSecond;
      this.penaltyPoints := penaltyPoints;
      this.prefs := prefs;
      score := 0.0;
      highScore := prefs.GetFloat(HighScoreKey, 0.0);
    }

    /** `Update` for a frame of `dt` seconds. */
    method Update(dt: real)
      modifies this`score, this`highScore, prefs
      ensures State() == Accrued(old(State()), dt, scorePerSecond)
      ensures prefs.entries == Saved(old(prefs.entries), old(State()), dt, scorePerSecond)
    {
      score := score + dt * scorePerSecond;
      if score > highScore {
        highScore := score;
        prefs.SetFloat(HighScoreKey, highScore);
      }
    }

    method ApplyPenalty()
      modifies this`score
      ensures State() == Penalized(old(State()), penaltyPoints)
    {
      score := score - penaltyPoints as real;
      if score < 0.0 {
        score := 0.0;
      }
    }
  }
}
