/** Both ends of the config channel, as the controllers run them. */
module ConfigWatch {
  import opened Kube
  import opened Api
  import opened ConfigCache

  /** The update channel shared by the two controllers. */
  class Channel {
    var pending: seq<Message>

    constructor ()
      ensures pending == []
    {
      pending := [];
    }

    method Put(m: Message)
      modifies this
      ensures pending == old(pending) + [m]
    {
      pending := pending + [m];
    }

    method Take() returns (m: Message)
      requires pending != []
      modifies this
      ensures [m] + pending == old(pending)
    {
      m := pending[0];
      pending := pending[1..];
    }
  }

  /** What a Get of the config comes back with. */
  datatype Read = Found(version: nat, config: Config, deleting: bool) | NotFound | ReadFailed

  function ReadOf(p: Published, fails: bool): Read {
    if fails then ReadFailed
    else match p
      case Missing => NotFound
      case Present(v, c) => Found(v, c, false)
      case Going(v, c) => Found(v, c, true)
  }

  class PCReconciler {
    const updates: Channel

    constructor (updates: Channel)
      ensures this.updates == updates
    {
      this.updates := updates;
    }

    /** One run of the sender. For every state it can run in, the message it leaves in the channel and the error it
        returns are those of the machine's Take and Send. */
    method Reconcile(read: Read) returns (failed: bool)
      modifies updates
      ensures forall s: State, fails: bool |
        Enabled(s, ConfigCache.Take(fails)) && read == ReadOf(s.platform, fails) && s.channel == old(updates.pending) ::
        var s1 := Step(s, ConfigCache.Take(fails)); var s2 := Step(s1, Send);
        updates.pending == s2.channel && failed == s1.sender.retry && s2.dirty == failed
    {
      var notify := Empty;
      match read {
        case ReadFailed =>
          updates.Put(notify);
          return true;
        case NotFound =>
          updates.Put(notify);
          return false;
        case Found(version, config, deleting) =>
          if deleting {
            updates.Put(notify);
            return false;
          }
          notify := Carries(version, config);
      }
      updates.Put(notify);
      return false;
    }
  }

  class Receiver {
    var providerConfig: Message

    constructor ()
      ensures providerConfig == Empty
    {
      providerConfig := Empty;
    }

    /** The map function on a received message: store the config, then list the objects and ask for a reconcile of each,
        in order. The cache and the requests are those of the machine's Receive. */
    method OnConfigUpdate(m: Message, listed: Option<seq<Key>>) returns (reqs: array<Key>)
      modifies this
      ensures fresh(reqs)
      ensures reqs[..] == OrElse(listed, [])
      ensures forall s: State |
        s.channel != [] && s.channel[0] == m && (listed.Some? ==> s.objects == set k | k in listed.value) ::
        var s' := Step(s, ConfigCache.Receive(listed.None?));
        providerConfig == s'.cache && s'.waiting == s.waiting + set k | k in reqs[..]
    {
      providerConfig := m;
      if listed.None? {
        reqs := new Key[0];
        return;
      }
      var items := listed.value;
      reqs := new Key[|items|](_ => Key("", ""));
      for i := 0 to |items|
        invariant providerConfig == m && reqs[..i] == items[..i]
      {
        reqs[i] := items[i];
      }
      assert reqs[..] == items;
    }
  }
}
