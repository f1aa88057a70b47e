/** The main loop's arms, updating memory, database and PipeWire in place. */
module MainLoop {
  import opened Prelude
  import opened Naming
  import opened Mixing
  import opened Routing
  import opened Database
  import opened Requests
  import opened Daemon
  import opened DaemonRuns

  class Controls {
    var applied: map<nat, Fader>
    var failed: bool
    var calls: nat
    /** Whether the n-th set goes through. */
    const works: nat -> bool

    constructor (nodes: set<nat>, works: nat -> bool)
      ensures applied == (map id | id in nodes :: UNITY) && !failed && this.works == works
    {
      applied, failed, calls, this.works := map id | id in nodes :: UNITY, false, 0, works;
    }

    method SetVolume(id: nat, volume: real)
      modifies this
      ensures applied.Keys == old(applied.Keys) && (old(failed) ==> failed)
      ensures !failed ==> id in applied && applied == old(applied)[id := old(applied)[id].(volume := Clamp(volume))]
      ensures id !in old(applied) ==> failed && applied == old(applied)
    {
      if works(calls) && id in applied {
        applied := applied[id := applied[id].(volume := Clamp(volume))];
      } else {
        failed := true;
      }
      calls := calls + 1;
    }

    method SetMute(id: nat, muted: bool)
      modifies this
      ensures applied.Keys == old(applied.Keys) && (old(failed) ==> failed)
      ensures !failed ==> id in applied && applied == old(applied)[id := old(applied)[id].(muted := muted)]
      ensures id !in old(applied) ==> failed && applied == old(applied)
    {
      if works(calls) && id in applied {
        applied := applied[id := applied[id].(muted := muted)];
      } else {
        failed := true;
      }
      calls := calls + 1;
    }
  }

  predicate Injective(created: map<Role, nat>) {
    forall r, q :: r in created && q in created && created[r] == created[q] ==> r == q
  }

  function ByRole(created: map<Role, nat>, applied: map<nat, Fader>): map<Role, Fader> {
    map r | r in created && created[r] in applied :: applied[created[r]]
  }

  class Loop {
    const db: Connection
    const pw: Controls
    /** `created_nodes`, keyed by what the recorded node name stands for. */
    const created: map<Role, nat>
    var channels: seq<Channel>
    var routes: seq<Rule>
    var mixer: Mixer
    var profile: string
    ghost var ownRoutes: bool

    /** Start-up, once nodes are recorded: the channels' stored state, then the default
        profile's rows; its mixer is not looked at. */
    constructor (db: Connection, pw: Controls, created: map<Role, nat>)
      requires Consistent(db.View()) && Injective(created)
      modifies pw
      ensures this.db == db && this.pw == pw && this.created == created
      ensures exists rules, loaded ::
        Starts(db.View(), old(ByRole(created, pw.applied)), old(pw.failed), rules, loaded, View())
    {
      this.db, this.pw, this.created := db, pw, created;
      channels, routes, mixer, profile, ownRoutes := [], [], DEFAULT_MIXER, DEFAULT, false;
      new;
      channels := db.LoadChannels();
      routes := db.LoadRoutes();
      ghost var rules := routes;
      LoadedNames(db.View());
      ghost var loaded := Restore();
      assert Starts(db.View(), old(ByRole(created, pw.applied)), old(pw.failed), rules, loaded, View());
    }

    method Restore() returns (ghost loaded: Option<Profile>)
      requires Injective(created) && DistinctNames(channels) && Consistent(db.View()) && !ownRoutes && profile == DEFAULT
      modifies this, pw
      ensures Loads(db.View(), DEFAULT, loaded)
      ensures Restored(old(View()), loaded, View())
    {
      loaded := None;
      var name := db.GetDefaultProfile();
      if name.Some? {
        var found := db.LoadProfile(name.value);
        loaded := found;
        if found.Some? {
          profile := name.value;
          AdoptStrips(found.value);
        }
      }
    }

    method AdoptStrips(p: Profile)
      requires Injective(created) && DistinctNames(channels)
      modifies this`channels, this`routes, this`ownRoutes, pw
      ensures channels == Applied(old(channels), p.channels)
      ensures routes == if p.routes != [] then p.routes else old(routes)
      ensures ownRoutes == (old(ownRoutes) || p.routes != [])
      ensures old(pw.failed) ==> pw.failed
      ensures !pw.failed ==> ByRole(created, pw.applied) == Pushed(old(ByRole(created, pw.applied)), old(channels), p.channels)
    {
      ApplyRows(p.channels);
      if p.routes != [] { routes := p.routes; ownRoutes := true; }
    }

    method AdoptMaster(m: Mixer)
      requires Injective(created)
      modifies this`mixer, pw
      ensures mixer == m
      ensures old(pw.failed) ==> pw.failed
      ensures !pw.failed ==> ByRole(created, pw.applied) == PushMaster(old(ByRole(created, pw.applied)), m.master)
    {
      mixer := m;
      ApplyFader(Mix(Stream), m.master.stream);
      ApplyFader(Mix(Monitor), m.master.monitor);
    }

    ghost function View(): State reads this, db, pw {
      State(db.View(), channels, routes, mixer, profile, ByRole(created, pw.applied), pw.failed, ownRoutes)
    }

    ghost predicate Valid() reads this, db, pw {
      Injective(created) && Sound(View())
    }

    /** The id recorded for the role is not one the PipeWire thread has a proxy under. */
    ghost predicate Deaf(role: Role) reads this, pw {
      role in created && created[role] !in pw.applied
    }

    method ApplyVolume(role: Role, volume: real)
      requires Injective(created)
      modifies pw
      ensures old(pw.failed) ==> pw.failed
      ensures !pw.failed ==> ByRole(created, pw.applied) == PushVolume(old(ByRole(created, pw.applied)), role, volume)
      ensures old(Deaf(role)) ==> pw.failed && pw.applied == old(pw.applied)
    {
      if role in created { pw.SetVolume(created[role], volume); }
    }

    method ApplyMute(role: Role, muted: bool)
      requires Injective(created)
      modifies pw
      ensures old(pw.failed) ==> pw.failed
      ensures !pw.failed ==> ByRole(created, pw.applied) == PushMute(old(ByRole(created, pw.applied)), role, muted)
      ensures old(Deaf(role)) ==> pw.failed && pw.applied == old(pw.applied)
    {
      if role in created { pw.SetMute(created[role], muted); }
    }

    method ApplyFader(role: Role, f: Fader)
      requires Injective(created)
      modifies pw
      ensures old(pw.failed) ==> pw.failed
      ensures !pw.failed ==> ByRole(created, pw.applied) == PushFader(old(ByRole(created, pw.applied)), role, f)
    {
      ApplyVolume(role, f.volume);
      ApplyMute(role, f.muted);
    }

    /** Position of the channel, or the number of channels when there is none of that name. */
    method Find(name: string) returns (i: nat)
      ensures i <= |channels| && (i < |channels| <==> HasChannel(channels, name))
      ensures i < |channels| ==> channels[i].name == name
    {
      i := 0;
      while i < |channels| && channels[i].name != name
        invariant i <= |channels| && forall k :: 0 <= k < i ==> channels[k].name != name
      {
        i := i + 1;
      }
    }

    method SetStrip(i: nat, strip: Strip)
      requires i < |channels| && DistinctNames(channels)
      modifies this`channels
      ensures channels == Replaced(old(channels), old(channels)[i].name, strip)
    {
      channels := channels[i := Channel(channels[i].name, strip)];
    }

    method SetVolume(name: string, m: MixType, volume: real)
      requires Injective(created) && DistinctNames(channels)
      modifies this`channels, pw
      ensures Follows(old(View()), SetChannelVolume(name, m, volume), None, View())
      ensures HasChannel(old(channels), name) && old(Deaf(Filter(name, m))) ==> pw.failed && pw.applied == old(pw.applied)
    {
      var i := Find(name);
      if i < |channels| {
        var s := channels[i].strip;
        SetStrip(i, s.With(m, s.At(m).(volume := volume)));
        assert channels == Turned(old(channels), name, m, volume);
        ApplyVolume(Filter(name, m), volume);
      }
    }

    method SetMute(name: string, m: MixType, muted: bool)
      requires Injective(created) && DistinctNames(channels)
      modifies this`channels, pw
      ensures Follows(old(View()), SetChannelMute(name, m, muted), None, View())
      ensures HasChannel(old(channels), name) && old(Deaf(Filter(name, m))) ==> pw.failed && pw.applied == old(pw.applied)
    {
      var i := Find(name);
      if i < |channels| {
        var s := channels[i].strip;
        SetStrip(i, s.With(m, s.At(m).(muted := muted)));
        assert channels == Muted(old(channels), name, m, muted);
        ApplyMute(Filter(name, m), muted);
      }
    }

    method SetMasterVolume(m: MixType, volume: real)
      requires Injective(created)
      modifies this`mixer, pw
      ensures Follows(old(View()), Command.SetMasterVolume(m, volume), None, View())
      ensures old(Deaf(Mix(m))) ==> pw.failed && pw.applied == old(pw.applied)
    {
      var master := mixer.master;
      mixer := mixer.(master := master.With(m, master.At(m).(volume := volume)));
      ApplyVolume(Mix(m), volume);
    }

    method SetMasterMute(m: MixType, muted: bool)
      requires Injective(created)
      modifies this`mixer, pw
      ensures Follows(old(View()), Command.SetMasterMute(m, muted), None, View())
      ensures old(Deaf(Mix(m))) ==> pw.failed && pw.applied == old(pw.applied)
    {
      var master := mixer.master;
      mixer := mixer.(master := master.With(m, master.At(m).(muted := muted)));
      ApplyMute(Mix(m), muted);
    }

    method DropPattern(pattern: string)
      modifies this`routes
      ensures routes == Retain(old(routes), pattern)
    {
      var kept: seq<Rule> := [];
      for n := 0 to |routes|
        invariant kept == Retain(routes[..n], pattern)
        invariant routes == old(routes)
      {
        assert routes[..n + 1][..n] == routes[..n];
        if routes[n].pattern != pattern { kept := kept + [routes[n]]; }
      }
      assert routes[..|routes|] == routes;
      routes := kept;
    }

    method SetRoute(pattern: string, channel: string)
      modifies this`routes, db
      ensures Follows(old(View()), SetAppRoute(pattern, channel), None, View())
    {
      DropPattern(pattern);
      var rule := NewRule(pattern, channel);
      routes := routes + [rule];
      var ok := db.SaveRoute(rule);
    }

    method RemoveRoute(pattern: string)
      modifies this`routes, db
      ensures Follows(old(View()), RemoveAppRoute(pattern), None, View())
    {
      DropPattern(pattern);
      db.DeleteRoute(pattern);
    }

    method Save(name: string)
      requires DistinctNames(channels) && DistinctPatterns(routes)
      modifies db
      ensures Follows(old(View()), Command.SaveProfile(name), None, View())
    {
      var ok := db.SaveProfile(Profile(name, name == DEFAULT, channels, routes, mixer));
    }

    method Delete(name: string)
      modifies db
      ensures Follows(old(View()), Command.DeleteProfile(name), None, View())
    {
      var deleted := db.DeleteProfile(name);
    }

    /** Copies a profile's rows onto the channels and their filters, row by row. */
    method ApplyRows(rows: seq<Channel>)
      requires Injective(created) && DistinctNames(channels)
      modifies this`channels, pw
      ensures channels == Applied(old(channels), rows)
      ensures old(pw.failed) ==> pw.failed
      ensures !pw.failed ==> ByRole(created, pw.applied) == Pushed(old(ByRole(created, pw.applied)), old(channels), rows)
    {
      for n := 0 to |rows|
        invariant channels == Applied(old(channels), rows[..n])
        invariant old(pw.failed) ==> pw.failed
        invariant !pw.failed ==>
          ByRole(created, pw.applied) == Pushed(old(ByRole(created, pw.applied)), old(channels), rows[..n])
      {
        AppliedKeepsNames(old(channels), rows[..n]);
        assert rows[..n + 1][..n] == rows[..n];
        ApplyRow(rows[n]);
      }
      assert rows[..|rows|] == rows;
    }

    method ApplyRow(row: Channel)
      requires Injective(created) && DistinctNames(channels)
      modifies this`channels, pw
      ensures channels == Replaced(old(channels), row.name, row.strip)
      ensures old(pw.failed) ==> pw.failed
      ensures !pw.failed ==> ByRole(created, pw.applied) == PushRow(old(ByRole(created, pw.applied)), old(channels), row)
    {
      var i := Find(row.name);
      if i < |channels| {
        SetStrip(i, row.strip);
        ApplyFader(Filter(row.name, Stream), row.strip.stream);
        ApplyFader(Filter(row.name, Monitor), row.strip.monitor);
      } else {
        assert channels == Replaced(channels, row.name, row.strip);
      }
    }

    method Load(name: string) returns (ghost loaded: Option<Profile>)
      requires Injective(created) && DistinctNames(channels) && Consistent(db.View())
      modifies this, pw
      ensures Follows(old(View()), Command.LoadProfile(name), loaded, View())
    {
      ghost var before := View();
      var found := db.LoadProfile(name);
      loaded := found;
      if found.Some? { Adopt(found.value); }
      LoadFollows(before, name, loaded, View());
    }

    method Adopt(p: Profile)
      requires Injective(created) && DistinctNames(channels)
      modifies this, pw
      ensures old(pw.failed) ==> pw.failed
      ensures View() == AfterLoad(old(View()), p).(failed := pw.failed, controls := View().controls)
      ensures !pw.failed ==> View().controls == AfterLoad(old(View()), p).controls
    {
      AdoptStrips(p);
      AdoptMaster(p.mixer);
      profile := p.name;
    }

    method Execute(c: Command) returns (ghost loaded: Option<Profile>)
      requires Valid()
      modifies this, db, pw
      ensures Follows(old(View()), c, loaded, View())
    {
      loaded := None;
      SoundNames(View());
      match c {
        case SetChannelVolume(name, m, v) => SetVolume(name, m, v);
        case SetChannelMute(name, m, muted) => SetMute(name, m, muted);
        case SetMasterVolume(m, v) => SetMasterVolume(m, v);
        case SetMasterMute(m, muted) => SetMasterMute(m, muted);
        case SetAppRoute(pattern, channel) => SetRoute(pattern, channel);
        case RemoveAppRoute(pattern) => RemoveRoute(pattern);
        case SaveProfile(name) => Save(name);
        case LoadProfile(name) => loaded := Load(name);
        case DeleteProfile(name) => Delete(name);
      }
    }

    /** The request arm: answer from a snapshot of the state, then carry out the command. */
    method Handle(request: Request) returns (response: Response)
      requires Valid()
      modifies this, db, pw
      ensures Valid()
      ensures response == HandleRequest(request, old(channels), old(db.profiles).Keys).response
      ensures Serve(old(View()), request, View())
    {
      ghost var before := View();
      var result := HandleRequest(request, channels, db.profiles.Keys);
      response := result.response;
      RequestsAreChecked(before, request);
      if result.command.Some? {
        ghost var loaded := Execute(result.command.value);
        StepKeepsSound(before, result.command.value, loaded, View());
      }
    }
  }

  lemma LoadFollows(s: State, name: string, loaded: Option<Profile>, t: State)
    requires Loads(s.tables, name, loaded) && (s.failed ==> t.failed)
    requires var e := if loaded.Some? then AfterLoad(s, loaded.value) else s;
      t == e.(failed := t.failed, controls := t.controls) && (!t.failed ==> t.controls == e.controls)
    ensures Follows(s, LoadProfile(name), loaded, t)
  {
  }
}
