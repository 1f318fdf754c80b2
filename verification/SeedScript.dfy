/** The seeding run itself: build_network's loops over the generator, the sink and the lists it grows. */
module SeedScript {
  import opened Options
  import opened SeedNetwork

  class Seeder<R(!new), S, N(==)> {
    const k: Kit<R, S, N>
    var w: World<R, S, N>

    constructor (k: Kit<R, S, N>, s: S)
      ensures this.k == k && w == Seeded(k, s)
    {
      this.k := k;
      w := Seeded(k, s);
    }

    /** "".join(RNG.choice(...) for _ in range(n)) */
    method DrawLetters(n: nat) returns (letters: seq<nat>)
      requires Sound(k.rng)
      modifies this
      ensures (w, letters) == Letters(k, old(w), n, [])
    {
      hide Sound;
      letters := [];
      var i := 0;
      while i < n
        invariant 0 <= i <= n
        invariant Letters(k, old(w), n, []) == Letters(k, w, n - i, letters)
      {
        var d := Choose(k, w, LETTERS);
        w := d.0;
        letters := letters + [d.1];
        i := i + 1;
      }
    }

    method FindHandle() returns (h: Label)
      requires Sound(k.rng)
      modifies this
      ensures (w, h) == NewHandle(k, old(w), k.patience)
    {
      hide Sound, DrawHandle;
      var tries := k.patience;
      var d := DrawHandle(k, w);
      while d.1 in w.used && tries > 0
        invariant d == DrawHandle(k, w)
        invariant NewHandle(k, old(w), k.patience) == NewHandle(k, w, tries)
        decreases tries
      {
        w := d.0;
        tries := tries - 1;
        d := DrawHandle(k, w);
      }
      h := d.1;
      w := if h in w.used then d.0.(stalled := true) else d.0.(used := w.used + {h});
    }

    method AddMember(caseId: Id, crew: nat, i: nat) returns (n: nat)
      requires Sound(k.rng) && crew < |w.made|
      modifies this
      ensures (w, n) == Member(k, old(w), caseId, crew, i)
    {
      hide Sound, NewHandle, CreateNode, Record, Letters, CreateEdge;
      var h := FindHandle();
      var node := CreateNode(k, w, caseId, h);
      n := node.1;
      w := Record(k, node.0, n, h);
      if i % 3 == 0 {
        var letters := DrawLetters(38);
        w := Record(k, w, n, Address(letters));
      } else {
        NoLetters(w);
      }
      var name := At(w, crew);
      w := CreateEdge(k, w, caseId, if i == 0 then Leads else MemberOf, n, crew, None, 30,
                      if i == 0 then High else Moderate, if i == 0 then Directing(h, name) else PostingAs(h, name));
    }

    lemma NoLetters(w: World<R, S, N>)
      requires Sound(k.rng)
      ensures Letters(k, w, 0, []) == (w, [])
    {
    }

    method BuildCrews(caseId: Id) returns (crews: seq<seq<nat>>)
      requires Sound(k.rng)
      modifies this
      ensures (w, crews) == (NoGroups(old(w)); Crews(k, old(w), caseId, []))
    {
      hide CREWS, Sound, CreateNode, Member, Flat, Kept, NoLoops;
      crews := [];
      NoGroups(w);
      while |crews| < |CREWS|
        invariant Groups(w, crews) && Groups(old(w), [])
        invariant Crews(k, w, caseId, crews) == Crews(k, old(w), caseId, [])
        decreases |CREWS| - |crews|
      {
        ghost var before := w;
        var group := CreateNode(k, w, caseId, CrewName(|crews|));
        w := group.0;
        NoneKept(w);
        var members := [];
        while |members| < CREWS[|crews|]
          invariant |members| <= CREWS[|crews|] && group.1 < |w.made| && |before.made| <= |w.made|
          invariant Kept(w, members) && Since(members, |before.made|) && Kept(group.0, []) && Since([], |before.made|)
          invariant Members(k, w, caseId, group.1, CREWS[|crews|], members, |before.made|) ==
                    Members(k, group.0, caseId, group.1, CREWS[|crews|], [], |before.made|)
          decreases CREWS[|crews|] - |members|
        {
          ghost var here := w;
          var n := AddMember(caseId, group.1, |members|);
          KeptMore(here, w, members, |before.made|);
          members := members + [n];
        }
        OneMoreGroup(before, w, crews, members);
        crews := crews + [members];
      }
    }

    method WeaveCrews(caseId: Id, crews: seq<seq<nat>>)
      requires Sound(k.rng) && Groups(w, crews)
      modifies this
      ensures w == Weave(k, old(w), caseId, crews, 0)
    {
      hide CREWS, Sound, Uniform, Choose, Between, CreateEdge, Sample, Flat, Vouches, Distinct, NoLoops;
      ghost var start := w;
      var c := 0;
      while c < |crews|
        invariant 0 <= c <= |crews| && Groups(w, crews) && Groups(start, crews)
        invariant Weave(k, w, caseId, crews, c) == Weave(k, start, caseId, crews, 0)
      {
        var members := crews[c];
        ghost var crew := w;
        var i := 0;
        while i < |members|
          invariant 0 <= i <= |members| && Kept(w, members) && Kept(crew, members) && w.made == crew.made
          invariant CrewVouches(k, w, caseId, members, i) == CrewVouches(k, crew, caseId, members, 0)
        {
          var n := Between(k, w, 3, 6);
          var size := if n.1 < |members| then n.1 else |members|;
          var picks := Sample(k, n.0, members, size);
          w := picks.0;
          VouchFor(caseId, members[i], picks.1);
          i := i + 1;
        }
        GroupsOn(crew, w, crews);
        c := c + 1;
      }
    }

    method VouchFor(caseId: Id, a: nat, picks: seq<nat>)
      requires Sound(k.rng) && a < |w.made| && Known(w, picks)
      modifies this
      ensures w == Vouches(k, old(w), caseId, a, picks)
    {
      hide Sound, Uniform, Choose, CreateEdge, NoLoops;
      ghost var start := w;
      var j := 0;
      assert picks[0..] == picks;
      while j < |picks|
        invariant 0 <= j <= |picks| && w.made == start.made
        invariant Vouches(k, w, caseId, a, picks[j..]) == Vouches(k, start, caseId, a, picks)
      {
        assert picks[j..][1..] == picks[j + 1..] && picks[j..][0] == picks[j];
        if !Same(w, a, picks[j]) {
          var weight := Uniform(k, w, 0.4, 1.0);
          var conf := Choose(k, weight.0, 4);
          w := CreateEdge(k, conf.0, caseId, VouchedFor, a, picks[j], Some(weight.1), 30, [Low, Moderate, Moderate, High][conf.1], Vouch);
        }
        j := j + 1;
      }
    }

    method BridgeSide(caseId: Id, a: nat, side: seq<nat>, weighted: bool)
      requires Sound(k.rng) && a < |w.made| && Below(side, a) && |side| >= 3
      modifies this
      ensures w == Side(k, old(w), caseId, a, side, weighted)
    {
      hide Sound, Uniform, Sample, CreateEdge, NoLoops, Distinct;
      var picks := Sample(k, w, side, 3);
      w := picks.0;
      ghost var start := w;
      var peers := picks.1;
      var j := 0;
      assert peers[0..] == peers;
      while j < |peers|
        invariant 0 <= j <= |peers| && w.made == start.made
        invariant Peers(k, w, caseId, a, peers[j..], weighted) == Peers(k, start, caseId, a, peers, weighted)
      {
        assert peers[j..][1..] == peers[j + 1..] && peers[j..][0] == peers[j];
        var weight := None;
        var d := Uniform(k, w, 0.5, 1.0);
        if weighted {
          w := d.0;
          weight := Some(d.1);
        }
        w := CreateEdge(k, w, caseId, CommunicatesWith, a, peers[j], weight, 30, Moderate, PrivateChannel);
        j := j + 1;
      }
    }

    method AddBridge(caseId: Id, one: seq<nat>, other: seq<nat>, weighted: bool) returns (n: nat)
      requires Sound(k.rng) && Known(w, one) && Known(w, other) && |one| >= 3 && |other| >= 3
      modifies this
      ensures (w, n) == Bridge(k, old(w), caseId, one, other, weighted)
    {
      hide Sound, NewHandle, CreateNode, Side, NoLoops;
      var h := FindHandle();
      var node := CreateNode(k, w, caseId, h);
      w, n := node.0, node.1;
      BridgeSide(caseId, n, one, weighted);
      BridgeSide(caseId, n, other, weighted);
    }

    method PlaceBrokers(caseId: Id, crews: seq<seq<nat>>) returns (brokers: seq<nat>)
      requires Sound(k.rng) && Groups(w, crews) && |crews| == |CREWS|
      modifies this
      ensures (w, brokers) == Brokers(k, old(w), caseId, crews, [])
    {
      hide Sound, Bridge, NoLoops, Flat, Kept;
      ghost var start := w;
      brokers := [];
      while |brokers| < |crews|
        invariant |brokers| <= |crews| && Groups(w, crews) && Groups(start, crews) && Known(w, brokers)
        invariant Brokers(k, w, caseId, crews, brokers) == Brokers(k, start, caseId, crews, [])
        decreases |crews| - |brokers|
      {
        var i := |brokers|;
        GroupsAreBig(w, crews);
        ghost var before := w;
        var b := AddBridge(caseId, crews[i], crews[(i + 1) % |crews|], true);
        GroupsOn(before, w, crews);
        brokers := brokers + [b];
      }
    }

    method SeedConflict(caseId: Id, flat: seq<nat>, count: nat)
      requires Sound(k.rng) && Kept(w, flat) && |flat| >= 2
      modifies this
      ensures w == Conflict(k, old(w), caseId, flat, count)
    {
      hide Sound, Sample, Choose, CreateEdge, NoLoops;
      ghost var start := w;
      var n := count;
      while n > 0
        invariant 0 <= n <= count && w.made == start.made
        invariant Conflict(k, w, caseId, flat, n) == Conflict(k, start, caseId, flat, count)
      {
        var pair := Sample(k, w, flat, 2);
        var kind := Choose(k, pair.0, 2);
        var conf := Choose(k, kind.0, 2);
        w := CreateEdge(k, conf.0, caseId, if kind.1 == 0 then AccusedScam else DisputedWith, pair.1[0], pair.1[1], None, 12,
                        if conf.1 == 0 then Low else Moderate, Accusation);
        n := n - 1;
      }
    }

    method AttachHosts(caseId: Id, flat: seq<nat>, count: nat)
      requires Sound(k.rng) && Known(w, flat) && |flat| > 0
      modifies this
      ensures w == Hosts(k, old(w), caseId, flat, count)
    {
      hide Sound, Between, Choose, Held, NoLoops;
      ghost var start := w;
      var n := count;
      while n > 0
        invariant 0 <= n <= count && |start.made| <= |w.made|
        invariant Hosts(k, w, caseId, flat, n) == Hosts(k, start, caseId, flat, count)
      {
        var number := Between(k, w, 1000, 9999);
        var asn := Choose(k, number.0, 3);
        w := Held(k, asn.0, caseId, flat, Host(number.1), Controls, 18, Moderate, OwnPost);
        n := n - 1;
      }
    }

    method AttachWallets(caseId: Id, flat: seq<nat>, count: nat)
      requires Sound(k.rng) && Known(w, flat) && |flat| > 0
      modifies this
      ensures w == Wallets(k, old(w), caseId, flat, count)
    {
      hide Sound, Letters, Held, NoLoops;
      ghost var start := w;
      var n := count;
      while n > 0
        invariant 0 <= n <= count && |start.made| <= |w.made|
        invariant Wallets(k, w, caseId, flat, n) == Wallets(k, start, caseId, flat, count)
      {
        var letters := DrawLetters(38);
        w := Held(k, w, caseId, flat, Address(letters), Controls, 20, Low, PostedByHandle);
        n := n - 1;
      }
    }

    method AttachVictims(caseId: Id, brokers: seq<nat>, count: nat)
      requires Sound(k.rng) && Known(w, brokers) && |brokers| > 0
      modifies this
      ensures w == Victims(k, old(w), caseId, brokers, count)
    {
      hide Sound, Between, Choose, Held, NoLoops;
      ghost var start := w;
      var n := count;
      while n > 0
        invariant 0 <= n <= count && |start.made| <= |w.made|
        invariant Victims(k, w, caseId, brokers, n) == Victims(k, start, caseId, brokers, count)
      {
        var name := Choose(k, w, VICTIMS);
        var number := Between(k, name.0, 100, 999);
        w := Held(k, number.0, caseId, brokers, Victim(name.1, number.1), BrokeredAccess, 10, Moderate, AccessAdvertised);
        n := n - 1;
      }
    }

    method Flatten(crews: seq<seq<nat>>) returns (flat: seq<nat>)
      ensures flat == Flat(crews)
    {
      flat := [];
      var c := 0;
      while c < |crews|
        invariant 0 <= c <= |crews| && flat == Flat(crews[..c])
      {
        assert crews[..c + 1] == crews[..c] + [crews[c]];
        FlatMore(crews[..c], crews[c]);
        flat := flat + crews[c];
        c := c + 1;
      }
      assert crews[..c] == crews;
    }

    method BuildFlagship(caseId: Id)
      requires Sound(k.rng)
      modifies this
      ensures w == Flagship(k, old(w), caseId)
    {
      hide NoLoops, Distinct, CREWS, Groups, Flat, Sound, Crews, Weave, Brokers, Bridge, Conflict, Hosts, Wallets, Victims;
      NoGroups(w);
      var crews := BuildCrews(caseId);
      ghost var made := w;
      WeaveCrews(caseId, crews);
      GroupsOn(made, w, crews);
      GroupsAreBig(w, crews);
      ghost var woven := w;
      var brokers := PlaceBrokers(caseId, crews);
      var twin := AddBridge(caseId, crews[0], crews[1], false);
      var flat := Flatten(crews);
      FlatIsKept(woven, w, crews);
      SeedConflict(caseId, flat, 24);
      AttachHosts(caseId, flat, 26);
      AttachWallets(caseId, flat, 20);
      AttachVictims(caseId, brokers + [twin], 14);
    }

    method ReplyTo(caseId: Id, a: nat, picks: seq<nat>)
      requires Sound(k.rng) && a < |w.made| && Known(w, picks)
      modifies this
      ensures w == Replies(k, old(w), caseId, a, picks)
    {
      hide Sound, Choose, CreateEdge, NoLoops;
      ghost var start := w;
      var j := 0;
      assert picks[0..] == picks;
      while j < |picks|
        invariant 0 <= j <= |picks| && w.made == start.made
        invariant Replies(k, w, caseId, a, picks[j..]) == Replies(k, start, caseId, a, picks)
      {
        assert picks[j..][1..] == picks[j + 1..] && picks[j..][0] == picks[j];
        if !Same(w, a, picks[j]) {
          var conf := Choose(k, w, 2);
          w := CreateEdge(k, conf.0, caseId, CommunicatesWith, a, picks[j], None, 14, if conf.1 == 0 then Low else Moderate, SameThread);
        }
        j := j + 1;
      }
    }

    method BuildCase(c: Network)
      requires Sound(k.rng) && c.size >= 4
      modifies this
      ensures w == OneCase(k, old(w), c)
    {
      hide Sound, NewHandle, CreateNode, Between, Sample, Replies, NoLoops, Distinct;
      NoneKept(w);
      ghost var start := w;
      var local := [];
      while |local| < c.size
        invariant |local| <= c.size && Kept(w, local) && Kept(start, [])
        invariant Locals(k, w, c.caseId, c.size, local) == Locals(k, start, c.caseId, c.size, [])
        decreases c.size - |local|
      {
        ghost var here := w;
        var h := FindHandle();
        var node := CreateNode(k, w, c.caseId, h);
        w := node.0;
        KeptMore(here, w, local, 0);
        local := local + [node.1];
      }
      ghost var made := w;
      var i := 0;
      while i < |local|
        invariant 0 <= i <= |local| && w.made == made.made
        invariant LocalReplies(k, w, c.caseId, local, i) == LocalReplies(k, made, c.caseId, local, 0)
      {
        var n := Between(k, w, 2, 4);
        var picks := Sample(k, n.0, local, n.1);
        w := picks.0;
        ReplyTo(c.caseId, local[i], picks.1);
        i := i + 1;
      }
    }

    /** build_network on a new generator and a new list of handles. */
    method BuildNetwork(caseId: Id, kestrel: Id, corvid: Id)
      requires Sound(k.rng)
      modifies this
      ensures w == Build(k, old(w.sink), caseId, kestrel, corvid)
    {
      hide Sound, Flagship, OneCase, NoLoops, Sized, Smaller;
      w := Seeded(k, w.sink);
      BuildFlagship(caseId);
      var cases := Smaller(kestrel, corvid);
      ghost var main := w;
      var i := 0;
      assert cases[0..] == cases;
      while i < |cases|
        invariant 0 <= i <= |cases| && Sized(cases[i..])
        invariant Secondary(k, w, cases[i..]) == Secondary(k, main, cases)
      {
        assert cases[i..][1..] == cases[i + 1..] && cases[i..][0] == cases[i];
        assert cases[i].size >= 4 && Sized(cases[i + 1..]) by { FirstSized(cases[i..]); }
        if !k.sink.populated(w.sink, cases[i].caseId) {
          BuildCase(cases[i]);
        }
        i := i + 1;
      }
    }

    lemma FirstSized(cases: seq<Network>)
      requires Sized(cases) && cases != []
      ensures cases[0].size >= 4 && Sized(cases[1..])
    {
    }
  }
}
