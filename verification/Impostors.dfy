/** Which channel names could make the reconciler take a virtual sink for the Wave:3. */
module Impostors {
  import opened Prelude
  import opened Naming
  import opened Reconciliation
  import opened Convergence
  import opened Demand

  predicate MentionsWave3(channel: string) {
    Contains(channel, "Elgato") && Contains(channel, "Wave")
  }

  lemma OccurrenceLetters(s: string, t: string, i: nat)
    ensures OccursAt(s, t, i) ==> forall k :: i <= k < i + |t| ==> k < |s| && s[k] == t[k - i]
  {
    if OccursAt(s, t, i) {
      forall k | i <= k < i + |t| ensures s[k] == t[k - i] {
        assert s[i..i + |t|][k - i] == s[k];
      }
    }
  }

  lemma LetterFrom(head: string, name: string, tail: string, i: nat)
    requires i < |head + name + tail|
    ensures i < |head| ==> (head + name + tail)[i] in head
    ensures i >= |head| + |name| ==> (head + name + tail)[i] in tail
  {
  }

  /** An occurrence that starts inside the name and has no '-' ends inside it too. */
  lemma OccurrenceStaysInside(head: string, name: string, tail: string, t: string, i: nat)
    requires OccursAt(head + name + tail, t, i) && |head| <= i < |head| + |name|
    requires '-' !in t && (tail != [] ==> tail[0] == '-')
    ensures OccursAt(name, t, i - |head|)
  {
    var s, k := head + name + tail, i - |head|;
    OccurrenceLetters(s, t, i);
    assert tail != [] ==> s[|head| + |name|] == '-';
    assert k + |t| <= |name|;
    assert s[i..i + |t|] == name[k..k + |t|];
  }

  /** A word cannot straddle the border between a channel name and what surrounds it. */
  lemma SameMentions(head: string, name: string, tail: string, t: string)
    requires t != [] && t[0] !in head && t[0] !in tail && '-' !in t
    requires tail != [] ==> tail[0] == '-'
    ensures Contains(head + name + tail, t) <==> Contains(name, t)
  {
    var s := head + name + tail;
    if Contains(s, t) {
      var i :| 0 <= i <= |s| && OccursAt(s, t, i);
      OccurrenceLetters(s, t, i);
      LetterFrom(head, name, tail, i);
      OccurrenceStaysInside(head, name, tail, t, i);
    }
    if Contains(name, t) {
      var k :| 0 <= k <= |name| && OccursAt(name, t, k);
      var i := |head| + k;
      assert s[i..i + |t|] == name[k..k + |t|];
      assert OccursAt(s, t, i);
    }
  }

  lemma NoMention(s: string, t: string)
    requires t != [] && t[0] !in s
    ensures !Contains(s, t)
  {
    forall i | 0 <= i <= |s| ensures !OccursAt(s, t, i) {
      OccurrenceLetters(s, t, i);
    }
  }

  lemma RoleStart(role: Role, prefix: string)
    requires prefix != [] && prefix[0] != 'u'
    ensures !StartsWith(NameOf(role), prefix) && NameOf(role) != prefix
  {
    var s := NameOf(role);
    assert s[0] == 'u';
    assert |prefix| <= |s| ==> s[..|prefix|][0] == s[0];
  }

  lemma RoleMentions(role: Role, t: string)
    requires t != [] && t[0] in {'E', 'W'} && '-' !in t
    ensures Contains(NameOf(role), t) <==> (role.Sink? || role.Filter?) && Contains(role.channel, t)
  {
    match role
    case Sink(c) =>
      SameMentions(PREFIX, c, "", t);
      assert NodeName(c) == PREFIX + c + "";
    case Filter(c, m) => SameMentions(PREFIX, c, Suffix(m), t);
    case Mix(m) => NoMention(MixNodeName(m), t);
    case StreamOut => NoMention(STREAM_OUT, t);
  }

  lemma RolePasses(role: Role)
    ensures PassesForWave3(NameOf(role)) <==> (role.Sink? || role.Filter?) && MentionsWave3(role.channel)
  {
    RoleStart(role, "alsa_output");
    RoleStart(role, "wave3-sink");
    RoleMentions(role, "Elgato");
    RoleMentions(role, "Wave");
  }

  /** The guard of `TwoRoundsSettle`, in terms of the channels the caller configured: no
      channel name may mention both "Elgato" and "Wave". */
  lemma NoImpostorExactlyWhen(configs: seq<ChannelConfig>)
    ensures NoImpostor(LayoutOf(configs)) <==>
      forall i :: 0 <= i < |configs| ==> !MentionsWave3(configs[i].name)
  {
    var names := Roles(LayoutOf(configs));
    DemandSize(LayoutOf(configs), None);
    if NoImpostor(LayoutOf(configs)) {
      forall i | 0 <= i < |configs| ensures !MentionsWave3(configs[i].name) {
        RoleNames(configs, i);
        RolePasses(RoleOf(configs, i));
        assert !PassesForWave3(names[i].name);
      }
    } else {
      var k :| 0 <= k < |names| && PassesForWave3(names[k].name);
      RoleNames(configs, k);
      RolePasses(RoleOf(configs, k));
    }
  }
}
