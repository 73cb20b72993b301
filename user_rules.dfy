/** The pure rules of UserService.kt: rank, win rate, the email and username
    formats, the display-name length rule and the "online" test. */
module UserRules {
  import opened Wrappers
  import opened Ascii
  import opened DatabaseTables

  // ---- Win rate and rank -------------------------------------------------

  /** gamesWon / gamesPlayed * 100, or 0 when no game was played.  An exact
      rational: the source computes it in double precision. */
  function WinRate(gamesWon: int, gamesPlayed: int): real {
    if gamesPlayed > 0 then (gamesWon as real / gamesPlayed as real) * 100.0 else 0.0
  }

  /** The win rate lies in 0..100 whenever 0 <= gamesWon <= gamesPlayed. */
  lemma WinRateRange(gamesWon: int, gamesPlayed: int)
    ensures 0 <= gamesWon <= gamesPlayed ==> 0.0 <= WinRate(gamesWon, gamesPlayed) <= 100.0
  {
    if 0 <= gamesWon <= gamesPlayed && gamesPlayed > 0 {
      var q := gamesWon as real / gamesPlayed as real;
      assert q * gamesPlayed as real == gamesWon as real;
      assert 0.0 <= q <= 1.0;
    }
  }

  /** Comparing the win rate with an integer threshold is integer
      cross-multiplication: gamesWon * 100 < t * gamesPlayed. */
  lemma {:induction false} WinRateBelow(gamesWon: int, gamesPlayed: int, t: int)
    requires gamesPlayed > 0
    ensures WinRate(gamesWon, gamesPlayed) < t as real <==> gamesWon * 100 < t * gamesPlayed
  {
    var p := gamesPlayed as real;
    var q := gamesWon as real / p;
    assert q * p == gamesWon as real;
    assert WinRate(gamesWon, gamesPlayed) * p == (gamesWon * 100) as real;
    assert (t * gamesPlayed) as real == t as real * p;
  }

  const RankNames: seq<string> := ["Beginner", "Novice", "Intermediate", "Advanced", "Expert", "Master"]

  /** calculateUserRank: the first tier whose level bound (and win-rate
      bound) holds, in the source's literal order. */
  function CalculateUserRank(level: int, winRate: real): (rank: string)
    ensures rank in RankNames
    ensures rank == "Beginner" <==> level < 5
    ensures level >= 100 ==> rank == "Master"
    ensures level >= 5 && winRate >= 90.0 ==> rank == "Master"
  {
    if level < 5 then "Beginner"
    else if level < 10 && winRate < 50.0 then "Novice"
    else if level < 20 && winRate < 70.0 then "Intermediate"
    else if level < 50 && winRate < 80.0 then "Advanced"
    else if level < 100 && winRate < 90.0 then "Expert"
    else "Master"
  }

  /** The tier table read as data: a tier is chosen when the level is below
      its level bound and the win rate below its win-rate bound. */
  datatype Tier = Tier(name: string, levelBelow: int, winRateBelow: int)

  const Tiers: seq<Tier> := [
    Tier("Novice", 10, 50), Tier("Intermediate", 20, 70),
    Tier("Advanced", 50, 80), Tier("Expert", 100, 90)]

  /** The first tier of `tiers` that applies to integer counts, else "Master";
      the win-rate bound is compared by cross-multiplication, with a win rate of
      0 when no game was played. */
  function TierByCounts(tiers: seq<Tier>, level: int, gamesWon: int, gamesPlayed: int): string {
    if tiers == [] then "Master"
    else if level < tiers[0].levelBelow &&
            (if gamesPlayed > 0 then gamesWon * 100 < tiers[0].winRateBelow * gamesPlayed
             else 0 < tiers[0].winRateBelow)
    then tiers[0].name
    else TierByCounts(tiers[1..], level, gamesWon, gamesPlayed)
  }

  /** An independent rank on integer counts: "Beginner" below level 5, else the tier table. */
  function RankByCounts(level: int, gamesWon: int, gamesPlayed: int): string {
    if level < 5 then "Beginner" else TierByCounts(Tiers, level, gamesWon, gamesPlayed)
  }

  /** The rank of getUserProfileById (calculateUserRank applied to the
      double-valued win rate) agrees with the integer tier table. */
  lemma {:induction false} RankMatchesTierTable(level: int, gamesWon: int, gamesPlayed: int)
    ensures CalculateUserRank(level, WinRate(gamesWon, gamesPlayed)) == RankByCounts(level, gamesWon, gamesPlayed)
  {
    if gamesPlayed > 0 {
      WinRateBelow(gamesWon, gamesPlayed, 50);
      WinRateBelow(gamesWon, gamesPlayed, 70);
      WinRateBelow(gamesWon, gamesPlayed, 80);
      WinRateBelow(gamesWon, gamesPlayed, 90);
    }
    var t0 := Tiers;
    var t1 := [Tier("Intermediate", 20, 70), Tier("Advanced", 50, 80), Tier("Expert", 100, 90)];
    var t2 := [Tier("Advanced", 50, 80), Tier("Expert", 100, 90)];
    var t3 := [Tier("Expert", 100, 90)];
    assert t0[1..] == t1 && t1[1..] == t2 && t2[1..] == t3 && t3[1..] == [];
    assert TierByCounts([], level, gamesWon, gamesPlayed) == "Master";
    var r3 := TierByCounts(t3, level, gamesWon, gamesPlayed);
    var r2 := TierByCounts(t2, level, gamesWon, gamesPlayed);
    var r1 := TierByCounts(t1, level, gamesWon, gamesPlayed);
    var r0 := TierByCounts(t0, level, gamesWon, gamesPlayed);
  }

  /** The tiers are not nested: a level-7 player falls through "Novice" and
      "Intermediate" by win rate alone, and becomes "Master" at 90%. */
  lemma FallThroughExamples()
    ensures CalculateUserRank(3, 100.0) == "Beginner"
    ensures CalculateUserRank(7, 40.0) == "Novice"
    ensures CalculateUserRank(7, 60.0) == "Intermediate"
    ensures CalculateUserRank(7, 95.0) == "Master"
    ensures CalculateUserRank(12, 60.0) == "Intermediate"
    ensures CalculateUserRank(12, 75.0) == "Advanced"
  {
  }

  // ---- Email format ------------------------------------------------------

  predicate IsLocalChar(c: char) { IsLetter(c) || IsDigit(c) || c == '+' || c == '_' || c == '.' || c == '-' }

  predicate IsDomainChar(c: char) { IsLetter(c) || IsDigit(c) || c == '.' || c == '-' }

  predicate AllLocalChars(s: string) { forall i :: 0 <= i < |s| ==> IsLocalChar(s[i]) }

  predicate AllDomainChars(s: string) { forall i :: 0 <= i < |s| ==> IsDomainChar(s[i]) }

  predicate AllLetters(s: string) { forall i :: 0 <= i < |s| ==> IsLetter(s[i]) }

  /** The language of ^[A-Za-z0-9+_.-]+@([A-Za-z0-9.-]+\.[A-Za-z]{2,})$,
      stated as the split points of a match: the '@' at k and the final '.' at d. */
  ghost predicate EmailSplit(e: string, k: int, d: int) {
    && 0 < k < d < |e| - 2
    && e[k] == '@' && AllLocalChars(e[..k])
    && k + 1 < d && AllDomainChars(e[k + 1..d])
    && e[d] == '.' && AllLetters(e[d + 1..])
  }

  ghost predicate MatchesEmailPattern(e: string) {
    exists k, d :: EmailSplit(e, k, d)
  }

  /** The first position of `c` in `s`. */
  function IndexOf(s: string, c: char): (r: Option<nat>)
    ensures r.Some? ==> r.value < |s| && s[r.value] == c && c !in s[..r.value]
    ensures r.None? ==> c !in s
  {
    if s == [] then None
    else if s[0] == c then Some(0)
    else
      match IndexOf(s[1..], c)
      case None => None
      case Some(k) => assert s[..k + 1] == [s[0]] + s[1..][..k]; Some(k + 1)
  }

  /** The last position of `c` in `s`. */
  function LastIndexOf(s: string, c: char): (r: Option<nat>)
    ensures r.Some? ==> r.value < |s| && s[r.value] == c && c !in s[r.value + 1..]
    ensures r.None? ==> c !in s
  {
    if s == [] then None
    else if s[|s| - 1] == c then Some(|s| - 1)
    else
      match LastIndexOf(s[..|s| - 1], c)
      case None => None
      case Some(k) => assert s[k + 1..] == s[..|s| - 1][k + 1..] + [s[|s| - 1]]; Some(k)
  }

  /** isValidEmail, as a hand-written matcher: split at the first '@',
      then split the domain at its last '.'. */
  function IsValidEmail(email: string): bool {
    match IndexOf(email, '@')
    case None => false
    case Some(k) =>
      var domain := email[k + 1..];
      k >= 1 && AllLocalChars(email[..k]) &&
      match LastIndexOf(domain, '.')
      case None => false
      case Some(d) =>
        d >= 1 && AllDomainChars(domain[..d]) && |domain| - d - 1 >= 2 && AllLetters(domain[d + 1..])
  }

  /** The matcher accepts exactly the strings the regular expression matches. */
  lemma IsValidEmailCorrect(email: string)
    ensures IsValidEmail(email) <==> MatchesEmailPattern(email)
  {
    if IsValidEmail(email) {
      MatcherGivesSplit(email);
    }
    if MatchesEmailPattern(email) {
      var k, d :| EmailSplit(email, k, d);
      SplitGivesMatcher(email, k, d);
    }
  }

  lemma MatcherGivesSplit(email: string)
    requires IsValidEmail(email)
    ensures MatchesEmailPattern(email)
  {
    var k := IndexOf(email, '@').value;
    var domain := email[k + 1..];
    var d := LastIndexOf(domain, '.').value;
    assert domain[..d] == email[k + 1..k + 1 + d];
    assert domain[d + 1..] == email[k + 1 + d + 1..];
    assert EmailSplit(email, k, k + 1 + d);
  }

  lemma SplitGivesMatcher(email: string, k: int, d: int)
    requires EmailSplit(email, k, d)
    ensures IsValidEmail(email)
  {
    MatchIsFirstAt(email, k);
    var domain := email[k + 1..];
    var d' := d - (k + 1);
    assert domain[d'] == '.';
    assert domain[d' + 1..] == email[d + 1..];
    LastDotOfDomain(domain, d');
    assert domain[..d'] == email[k + 1..d];
  }

  /** No character class of the pattern contains '@', so the '@' of a
      match is the first '@'. */
  lemma MatchIsFirstAt(email: string, k: int)
    requires 0 <= k < |email| && email[k] == '@' && AllLocalChars(email[..k])
    ensures IndexOf(email, '@') == Some(k)
  {
    assert '@' !in email[..k] by {
      forall i | 0 <= i < k ensures email[..k][i] != '@' { assert IsLocalChar(email[..k][i]); }
    }
    assert email[k] in email;
  }

  /** The top-level domain has only letters, so the '.' before it is the last '.'. */
  lemma LastDotOfDomain(domain: string, d: int)
    requires 0 <= d < |domain| && domain[d] == '.' && AllLetters(domain[d + 1..])
    ensures LastIndexOf(domain, '.') == Some(d)
  {
    var tld := domain[d + 1..];
    assert '.' !in tld by {
      forall i | 0 <= i < |tld| ensures tld[i] != '.' { assert IsLetter(tld[i]); }
    }
    assert domain[d] in domain;
  }

  lemma ValidEmailExample()
    ensures IsValidEmail("a@x.co")
  {
    var e := "a@x.co";
    assert e[..1] == "a" && e[2..3] == "x" && e[4..] == "co";
    assert EmailSplit(e, 1, 3);
    SplitGivesMatcher(e, 1, 3);
  }

  lemma NoTopLevelDomainExample()
    ensures !IsValidEmail("a@b")
  {
    assert IndexOf("a@b", '@') == Some(1);
    assert LastIndexOf("b", '.') == None;
  }

  // ---- Username and display name -----------------------------------------

  /** isValidUsername: 3..50 characters, all in [A-Za-z0-9_]. */
  predicate IsValidUsername(username: string) {
    3 <= |username| <= 50 && MatchesWordPattern(username)
  }

  /** The lowercase form that register stores is itself a valid username. */
  lemma LowercaseKeepsUsernameValid(username: string)
    requires IsValidUsername(username)
    ensures IsValidUsername(Lowercase(username))
  {
    var l := Lowercase(username);
    forall i | 0 <= i < |l| ensures IsWordChar(l[i]) {
      assert l[i] == ToLower(username[i]);
    }
  }

  /** The rule updateUserProfile applies to a new display name: 1..100 characters. */
  predicate DisplayNameLengthOk(name: string) { 1 <= |name| <= 100 }

  // ---- Online status -----------------------------------------------------

  const OnlineWindowMs := 5 * 60 * 1000

  /** The row is an active session of `userId` created within the last five minutes. */
  predicate RecentSessionOf(s: SessionRow, userId: UserId, now: Instant) {
    s.userId == userId && s.isActive && s.createdAt > now - OnlineWindowMs
  }

  /** isUserOnline: the count of such sessions is positive. */
  function IsUserOnline(sessions: seq<SessionRow>, userId: UserId, now: Instant): (online: bool)
    ensures online <==> exists i :: 0 <= i < |sessions| && RecentSessionOf(sessions[i], userId, now)
  {
    Count(sessions, (s: SessionRow) => RecentSessionOf(s, userId, now)) > 0
  }

  /** An active session keeps its user online for five minutes after it was created. */
  lemma OnlineWindow(sessions: seq<SessionRow>, i: nat, later: Instant)
    requires i < |sessions| && sessions[i].isActive
    ensures sessions[i].createdAt <= later < sessions[i].createdAt + OnlineWindowMs ==>
              IsUserOnline(sessions, sessions[i].userId, later)
  {
  }

  /** Once five minutes have passed since every active session of the user
      was created, the user is offline, whatever else the table holds. */
  lemma OfflineAfterWindow(sessions: seq<SessionRow>, userId: UserId, later: Instant)
    requires forall j :: 0 <= j < |sessions| && sessions[j].userId == userId && sessions[j].isActive ==>
               sessions[j].createdAt + OnlineWindowMs <= later
    ensures !IsUserOnline(sessions, userId, later)
  {
  }
}
