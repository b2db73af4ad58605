/**
 * The adapter's key space. Every key starts with the lower-cased coin name
 * and a ':'; members of the two sorted sets join two parts with ':'.
 */
module Keys {
  import opened Text

  function CurrentRoundKey(coin: string): string { coin + ":shares:round:current" }

  function RoundKey(coin: string, height: nat): string { coin + ":shares:round:" + NatToString(height) }

  function StatsKey(coin: string): string { coin + ":stats" }

  function HashrateKey(coin: string): string { coin + ":shares:hashrate" }

  function PendingKey(coin: string): string { coin + ":blocks:pending" }

  /** A hashrate sample: "<difficulty>:<username>". */
  function HashrateMember(difficulty: nat, username: string): string { NatToString(difficulty) + ":" + username }

  /** A pending block: "<blockHash>:<first transaction>". */
  function PendingMember(blockHash: string, tx: string): string { blockHash + ":" + tx }

  lemma SuffixCancel(p: string, s: string, t: string)
    requires p + s == p + t
    ensures s == t
  {
    assert s == (p + s)[|p|..];
  }

  lemma PrefixKeepsDifference(p: string, s: string, t: string)
    requires s != t
    ensures p + s != p + t
  {
    if p + s == p + t {
      SuffixCancel(p, s, t);
    }
  }

  /** Within one coin, the five key families never collide. */
  lemma KeysDistinct(coin: string, height: nat)
    ensures CurrentRoundKey(coin) != RoundKey(coin, height)
    ensures CurrentRoundKey(coin) != StatsKey(coin)
    ensures CurrentRoundKey(coin) != HashrateKey(coin)
    ensures CurrentRoundKey(coin) != PendingKey(coin)
    ensures RoundKey(coin, height) != StatsKey(coin)
    ensures RoundKey(coin, height) != HashrateKey(coin)
    ensures RoundKey(coin, height) != PendingKey(coin)
    ensures StatsKey(coin) != HashrateKey(coin)
    ensures StatsKey(coin) != PendingKey(coin)
    ensures HashrateKey(coin) != PendingKey(coin)
  {
    var digits := NatToString(height);
    var round := ":shares:round:" + digits;
    assert RoundKey(coin, height) == coin + round;
    // "current" is not a number: the two round keys differ right after "round:"
    assert round[14] == digits[0] && IsDigit(round[14]);
    assert ":shares:round:current"[14] == 'c';
    PrefixKeepsDifference(coin, ":shares:round:current", round);
    assert round[8] != ":shares:hashrate"[8];
    assert round[1] != ":blocks:pending"[1];
    PrefixKeepsDifference(coin, round, ":stats");
    PrefixKeepsDifference(coin, round, ":shares:hashrate");
    PrefixKeepsDifference(coin, round, ":blocks:pending");
    PrefixKeepsDifference(coin, ":shares:round:current", ":stats");
    PrefixKeepsDifference(coin, ":shares:round:current", ":shares:hashrate");
    PrefixKeepsDifference(coin, ":shares:round:current", ":blocks:pending");
    PrefixKeepsDifference(coin, ":stats", ":shares:hashrate");
    PrefixKeepsDifference(coin, ":stats", ":blocks:pending");
    PrefixKeepsDifference(coin, ":shares:hashrate", ":blocks:pending");
  }

  /** Rounds sealed at different heights are kept under different keys. */
  lemma RoundKeyInjective(coin: string, h1: nat, h2: nat)
    ensures RoundKey(coin, h1) == RoundKey(coin, h2) ==> h1 == h2
  {
    if RoundKey(coin, h1) == RoundKey(coin, h2) {
      SuffixCancel(coin + ":shares:round:", NatToString(h1), NatToString(h2));
      NatToStringInjective(h1, h2);
    }
  }
}
