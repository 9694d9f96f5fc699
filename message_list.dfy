/** The inbox list of the home screen (components/MessageList.tsx): a fixed set
    of sample messages, the platform filter applied to them before display,
    and the colour of the platform indicator drawn beside each message. */
module MessageList {
  import opened Optional
  import Colors

  datatype Sender = Sender(id: string, name: string, avatar: string)

  datatype Message = Message(
    id: string,
    sender: Sender,
    content: string,
    timestamp: string,
    isRead: bool,
    platform: string)

  /** The sample messages the list shows, in display order. */
  const Messages: seq<Message> := [
    Message("1",
      Sender("user1", "Sarah Johnson",
        "https://images.unsplash.com/photo-1494790108377-be9c29b29330?q=80&w=100&auto=format&fit=crop"),
      "Hey, are we still meeting for coffee tomorrow?", "10:30 AM", false, "whatsapp"),
    Message("2",
      Sender("user2", "Michael Chen",
        "https://images.unsplash.com/photo-1507003211169-0a1dd7228f2d?q=80&w=100&auto=format&fit=crop"),
      "I just sent you the project files. Let me know what you think!", "9:45 AM", true, "telegram"),
    Message("3",
      Sender("user3", "Emma Wilson",
        "https://images.unsplash.com/photo-1438761681033-6461ffad8d80?q=80&w=100&auto=format&fit=crop"),
      "Did you see the latest updates to the design system?", "Yesterday", false, "slack"),
    Message("4",
      Sender("user4", "David Kim",
        "https://images.unsplash.com/photo-1500648767791-00dcc994a43e?q=80&w=100&auto=format&fit=crop"),
      "Happy birthday! Hope you have an amazing day! \U{1F382}\U{1F389}", "Yesterday", true, "messenger"),
    Message("5",
      Sender("user5", "Sophia Martinez",
        "https://images.unsplash.com/photo-1544005313-94ddf0286df2?q=80&w=100&auto=format&fit=crop"),
      "Can you send me the address for the event tonight?", "Monday", true, "instagram")
  ]

  /** The platform ids the colour lookup knows. */
  const KnownPlatforms: set<string> :=
    {"whatsapp", "telegram", "messenger", "instagram", "signal", "slack"}

  // ---------------------------------------------------------------------------
  // Filtering
  // ---------------------------------------------------------------------------

  /** `ms.filter(m => m.platform === p)`: the messages of `ms` on platform `p`,
      visited from first to last. */
  function Filter(ms: seq<Message>, p: string): (r: seq<Message>)
    ensures |r| <= |ms|
    ensures forall k :: 0 <= k < |r| ==> r[k].platform == p
  {
    if ms == [] then []
    else if ms[0].platform == p then [ms[0]] + Filter(ms[1..], p)
    else Filter(ms[1..], p)
  }

  /** JavaScript truthiness of the optional `platform` property: both
      `undefined` and the empty string are falsy. */
  predicate Truthy(platform: Option<string>)
  {
    platform.Some? && platform.value != ""
  }

  /** The list handed to the FlatList: the messages of the selected platform,
      or all of them when no platform is selected. */
  function FilteredMessages(ms: seq<Message>, platform: Option<string>): (r: seq<Message>)
    ensures !Truthy(platform) ==> r == ms
    ensures Truthy(platform) ==> forall k :: 0 <= k < |r| ==> r[k].platform == platform.value
    ensures |r| <= |ms|
  {
    if Truthy(platform) then Filter(ms, platform.value) else ms
  }

  /** The platform of every message, in list order. */
  function PlatformsOf(ms: seq<Message>): (ps: seq<string>)
  {
    seq(|ms|, k requires 0 <= k < |ms| => ms[k].platform)
  }

  /** Every position moved one place to the right. */
  function Shift(s: seq<nat>): (t: seq<nat>)
    ensures |t| == |s| && forall k :: 0 <= k < |s| ==> t[k] == s[k] + 1
  {
    seq(|s|, k requires 0 <= k < |s| => s[k] + 1)
  }

  /** A position is in the shifted sequence exactly when its predecessor is in the original. */
  lemma ShiftMembership(s: seq<nat>, i: nat)
    ensures i in Shift(s) <==> i >= 1 && i - 1 in s
  {
    var t := Shift(s);
    if i in t {
      var k :| 0 <= k < |t| && t[k] == i;
      assert s[k] == i - 1;
    }
    if i >= 1 && i - 1 in s {
      var k :| 0 <= k < |s| && s[k] == i - 1;
      assert t[k] == i;
    }
  }

  /** The positions of `ms` whose platform is `p`, in increasing order. */
  function MatchPositions(ms: seq<Message>, p: string): (idx: seq<nat>)
    ensures |idx| == |Filter(ms, p)|
  {
    if ms == [] then []
    else if ms[0].platform == p then [0] + Shift(MatchPositions(ms[1..], p))
    else Shift(MatchPositions(ms[1..], p))
  }

  /** The filter result holds the messages at the matching positions. */
  lemma {:induction false} MatchPositionsSelect(ms: seq<Message>, p: string)
    ensures forall k :: 0 <= k < |MatchPositions(ms, p)| ==>
      MatchPositions(ms, p)[k] < |ms| && Filter(ms, p)[k] == ms[MatchPositions(ms, p)[k]]
  {
    if ms != [] {
      var tail := ms[1..];
      MatchPositionsSelect(tail, p);
      var rest := MatchPositions(tail, p);
      var r := Filter(tail, p);
      var shifted := Shift(rest);
      assert forall k :: 0 <= k < |rest| ==> shifted[k] < |ms| && r[k] == ms[shifted[k]] by {
        forall k | 0 <= k < |rest| ensures shifted[k] < |ms| && r[k] == ms[shifted[k]] {
          assert tail[rest[k]] == ms[rest[k] + 1];
        }
      }
      if ms[0].platform == p {
        var idx := [0] + shifted;
        var f := [ms[0]] + r;
        assert MatchPositions(ms, p) == idx && Filter(ms, p) == f;
        forall k | 0 <= k < |idx| ensures idx[k] < |ms| && f[k] == ms[idx[k]] {
          if k > 0 {
            assert idx[k] == shifted[k - 1] && f[k] == r[k - 1];
          }
        }
      } else {
        assert MatchPositions(ms, p) == shifted && Filter(ms, p) == r;
      }
    }
  }

  /** The matching positions increase. */
  lemma {:induction false} MatchPositionsIncrease(ms: seq<Message>, p: string)
    ensures forall k, l :: 0 <= k < l < |MatchPositions(ms, p)| ==>
      MatchPositions(ms, p)[k] < MatchPositions(ms, p)[l]
  {
    if ms != [] {
      MatchPositionsIncrease(ms[1..], p);
    }
  }

  /** One step of the matching positions: position 0 when the head matches,
      and the tail's positions moved one place right. */
  lemma MatchPositionsUnfold(ms: seq<Message>, p: string, i: nat)
    requires ms != []
    ensures i in MatchPositions(ms, p) <==>
      (i == 0 && ms[0].platform == p) || (i >= 1 && i - 1 in MatchPositions(ms[1..], p))
  {
    ShiftMembership(MatchPositions(ms[1..], p), i);
  }

  /** A position is a matching position exactly when its message is on `p`. */
  lemma {:induction false} MatchPositionsComplete(ms: seq<Message>, p: string, i: nat)
    ensures i in MatchPositions(ms, p) <==> i < |ms| && ms[i].platform == p
  {
    if ms != [] {
      MatchPositionsUnfold(ms, p, i);
      if i >= 1 {
        MatchPositionsComplete(ms[1..], p, i - 1);
        assert i < |ms| ==> ms[i] == ms[1..][i - 1];
      }
    }
  }

  /** The filter result is exactly the messages at the positions `idx` of
      `ms`, where `idx` is increasing and holds precisely the positions whose
      platform is `p`: an order-preserving subsequence that drops nothing. */
  lemma FilterPositions(ms: seq<Message>, p: string) returns (idx: seq<nat>)
    ensures |idx| == |Filter(ms, p)|
    ensures forall k :: 0 <= k < |idx| ==> idx[k] < |ms| && Filter(ms, p)[k] == ms[idx[k]]
    ensures forall k, l :: 0 <= k < l < |idx| ==> idx[k] < idx[l]
    ensures forall i :: 0 <= i < |ms| ==> (ms[i].platform == p <==> i in idx)
  {
    idx := MatchPositions(ms, p);
    MatchPositionsSelect(ms, p);
    MatchPositionsIncrease(ms, p);
    forall i | 0 <= i < |ms|
      ensures ms[i].platform == p <==> i in idx
    {
      MatchPositionsComplete(ms, p, i);
    }
  }

  /** A message survives the filter exactly when it is in the list and on the
      selected platform. */
  lemma {:induction false} FilterMembership(ms: seq<Message>, p: string, m: Message)
    ensures m in Filter(ms, p) <==> m in ms && m.platform == p
  {
    if ms != [] {
      FilterMembership(ms[1..], p, m);
      assert ms == [ms[0]] + ms[1..];
    }
  }

  /** The filter keeps as many messages as the list has on platform `p`. */
  lemma {:induction false} FilterCount(ms: seq<Message>, p: string)
    ensures |Filter(ms, p)| == multiset(PlatformsOf(ms))[p]
  {
    if ms != [] {
      FilterCount(ms[1..], p);
      assert PlatformsOf(ms) == [ms[0].platform] + PlatformsOf(ms[1..]);
    }
  }

  /** The filter is empty exactly when no message of the list is on `p`. */
  lemma {:induction false} FilterEmpty(ms: seq<Message>, p: string)
    ensures Filter(ms, p) == [] <==> forall k :: 0 <= k < |ms| ==> ms[k].platform != p
  {
    if ms != [] {
      FilterEmpty(ms[1..], p);
      assert forall k :: 1 <= k < |ms| ==> ms[k] == ms[1..][k - 1];
    }
  }

  /** Filtering a list whose messages are all on `p` returns it unchanged. */
  lemma {:induction false} FilterAllMatching(ms: seq<Message>, p: string)
    requires forall k :: 0 <= k < |ms| ==> ms[k].platform == p
    ensures Filter(ms, p) == ms
  {
    if ms != [] {
      FilterAllMatching(ms[1..], p);
    }
  }

  /** Filtering again by the same platform changes nothing. */
  lemma FilterIdempotent(ms: seq<Message>, p: string)
    ensures Filter(Filter(ms, p), p) == Filter(ms, p)
  {
    FilterAllMatching(Filter(ms, p), p);
  }

  /** Showing the displayed list again with the same selection changes nothing. */
  lemma FilteredMessagesIdempotent(ms: seq<Message>, platform: Option<string>)
    ensures FilteredMessages(FilteredMessages(ms, platform), platform) == FilteredMessages(ms, platform)
  {
    if Truthy(platform) {
      FilterIdempotent(ms, platform.value);
    }
  }

  /** A message whose platform no other message of the list shares is the
      whole filter result for that platform. */
  lemma {:induction false} FilterUnique(ms: seq<Message>, k: nat)
    requires k < |ms|
    requires forall j :: 0 <= j < |ms| && j != k ==> ms[j].platform != ms[k].platform
    ensures Filter(ms, ms[k].platform) == [ms[k]]
  {
    var p := ms[k].platform;
    var tail := ms[1..];
    assert forall j :: 0 <= j < |tail| ==> tail[j] == ms[j + 1];
    if k == 0 {
      FilterEmpty(tail, p);
    } else {
      FilterUnique(tail, k - 1);
    }
  }

  /** With a platform selected, the displayed list is non-empty exactly when
      some sample message is on that platform. */
  lemma FilteredMessagesEmpty(ms: seq<Message>, p: string)
    requires p != ""
    ensures FilteredMessages(ms, Some(p)) == [] <==> forall k :: 0 <= k < |ms| ==> ms[k].platform != p
  {
    FilterEmpty(ms, p);
  }

  /** Selecting a platform that no sample message carries, `signal` among
      them, displays nothing. */
  lemma FixtureUnknownPlatform(p: string)
    requires p != ""
    requires p !in {"whatsapp", "telegram", "slack", "messenger", "instagram"}
    ensures FilteredMessages(Messages, Some(p)) == []
  {
    FilterEmpty(Messages, p);
  }

  /** Each platform of the samples has exactly one message, shown alone when
      that platform is selected. */
  lemma FixtureOnePerPlatform(k: nat)
    requires k < |Messages|
    ensures FilteredMessages(Messages, Some(Messages[k].platform)) == [Messages[k]]
  {
    FixtureInitials();
    FilterUnique(Messages, k);
  }

  /** The platforms of the sample messages start with five different letters. */
  lemma FixtureInitials()
    ensures forall j, k :: 0 <= j < |Messages| && 0 <= k < |Messages| && j != k ==>
      Messages[j].platform[0] != Messages[k].platform[0]
  {
    var m := Messages;
    assert m[0].platform[0] == 'w' && m[1].platform[0] == 't' && m[2].platform[0] == 's';
    assert m[3].platform[0] == 'm' && m[4].platform[0] == 'i';
  }

  // ---------------------------------------------------------------------------
  // Platform colours
  // ---------------------------------------------------------------------------

  /** The indicator colour for a platform id: the platform's brand colour for
      the six known ids, the accent colour for any other string. */
  function GetPlatformColor(platform: string): (c: string)
    ensures platform == "whatsapp" ==> c == Colors.Whatsapp
    ensures platform == "telegram" ==> c == Colors.Telegram
    ensures platform == "messenger" ==> c == Colors.Messenger
    ensures platform == "instagram" ==> c == Colors.Instagram
    ensures platform == "signal" ==> c == Colors.Signal
    ensures platform == "slack" ==> c == Colors.Slack
    ensures platform !in KnownPlatforms ==> c == Colors.Accent
  {
    match platform
    case "whatsapp" => Colors.Whatsapp
    case "telegram" => Colors.Telegram
    case "messenger" => Colors.Messenger
    case "instagram" => Colors.Instagram
    case "signal" => Colors.Signal
    case "slack" => Colors.Slack
    case _ => Colors.Accent
  }

  /** The accent colour marks exactly the unknown platforms: no brand colour
      coincides with it. */
  lemma AccentIffUnknown(platform: string)
    ensures GetPlatformColor(platform) == Colors.Accent <==> platform !in KnownPlatforms
  {
  }

  /** Distinct known platforms get distinct colours. */
  lemma PlatformColorInjective(p: string, q: string)
    requires p in KnownPlatforms && q in KnownPlatforms && p != q
    ensures GetPlatformColor(p) != GetPlatformColor(q)
  {
  }

  /** Every sample message is drawn with its platform's brand colour. */
  lemma FixtureColorsAreBrandColors()
    ensures forall k :: 0 <= k < |Messages| ==> GetPlatformColor(Messages[k].platform) != Colors.Accent
  {
  }
}
