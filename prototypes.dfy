/** The key string both early client prototypes hand back for a buffer:
    the address, an underscore, then the buffer name. */
module PrototypeKeys {
  function BufferKey(ipaddr: string, name: string): (key: string)
    ensures |key| == |ipaddr| + 1 + |name|
    ensures key[..|ipaddr|] == ipaddr && key[|ipaddr|] == '_' && key[|ipaddr| + 1..] == name
  {
    ipaddr + "_" + name
  }

  /** A key is never the empty string, the prototypes' "not registered"
      answer. */
  lemma BufferKeyNotEmpty(ipaddr: string, name: string)
    ensures BufferKey(ipaddr, name) != ""
  {
    assert |BufferKey(ipaddr, name)| > 0;
  }

  /** As long as addresses contain no underscore, the key tells the address
      and the name apart: different buffers get different keys. */
  lemma {:induction false} BufferKeyInjective(a1: string, n1: string, a2: string, n2: string)
    requires '_' !in a1 && '_' !in a2
    ensures BufferKey(a1, n1) == BufferKey(a2, n2) <==> a1 == a2 && n1 == n2
  {
    var k1, k2 := BufferKey(a1, n1), BufferKey(a2, n2);
    if k1 == k2 {
      assert a1 == k1[..|a1|] == k2[..|a2|] == a2;
    }
  }
}

/** The first prototype client: it remembers the names it registered and
    appends each new definition to the definition vectors shared through
    the segment, refusing a name it has registered before. */
module PrototypeDsmClient {
  import opened PrototypeKeys

  datatype LocalDefinition = LocalDefinition(name: string, pass: string, length: int)
  datatype RemoteDefinition = RemoteDefinition(name: string, pass: string, ipaddr: string)

  function LocalNames(defs: seq<LocalDefinition>, from: nat): set<string>
  {
    set i | from <= i < |defs| :: defs[i].name
  }

  function RemoteNames(defs: seq<RemoteDefinition>, from: nat): set<string>
  {
    set i | from <= i < |defs| :: defs[i].name
  }

  class DsmClient {
    /** Names this client registered. */
    var localNames: set<string>
    var remoteNames: set<string>
    /** The shared definition vectors. */
    var localDefinitions: seq<LocalDefinition>
    var remoteDefinitions: seq<RemoteDefinition>
    /** How many definitions the vectors held when this client attached. */
    const localBase: nat
    const remoteBase: nat

    /** The local name set is exactly the names of the local definitions
        this client appended, and no name was appended twice. */
    ghost predicate LocalValid()
      reads this
    {
      && localBase <= |localDefinitions|
      && localNames == LocalNames(localDefinitions, localBase)
      && (forall i, j :: localBase <= i < j < |localDefinitions| ==> localDefinitions[i].name != localDefinitions[j].name)
    }

    /** The same for the remote names and definitions. */
    ghost predicate RemoteValid()
      reads this
    {
      && remoteBase <= |remoteDefinitions|
      && remoteNames == RemoteNames(remoteDefinitions, remoteBase)
      && (forall i, j :: remoteBase <= i < j < |remoteDefinitions| ==> remoteDefinitions[i].name != remoteDefinitions[j].name)
    }

    ghost predicate Valid()
      reads this
    {
      LocalValid() && RemoteValid()
    }

    /** Attaches to vectors already holding `local` and `remote`, then runs
        initialize(). */
    constructor (local: seq<LocalDefinition>, remote: seq<RemoteDefinition>)
      ensures Valid()
      ensures localDefinitions == local + [LocalDefinition("name0", "pass0", 18)] + [LocalDefinition("name1", "pass0", 20)]
      ensures remoteDefinitions == remote + [RemoteDefinition("name0", "pass1", "ipaddr0")] + [RemoteDefinition("name1", "pass1", "ipaddr0")]
    {
      localNames := {};
      remoteNames := {};
      localDefinitions := local;
      remoteDefinitions := remote;
      localBase := |local|;
      remoteBase := |remote|;
      new;
      Initialize();
    }

    /** Registers the test buffers; the repeated "name0" calls are refused. */
    method Initialize()
      requires Valid() && localNames == {} && remoteNames == {}
      modifies this
      ensures Valid()
      ensures localDefinitions == old(localDefinitions) + [LocalDefinition("name0", "pass0", 18)] + [LocalDefinition("name1", "pass0", 20)]
      ensures remoteDefinitions == old(remoteDefinitions) + [RemoteDefinition("name0", "pass1", "ipaddr0")] + [RemoteDefinition("name1", "pass1", "ipaddr0")]
    {
      ghost var local, remote := localDefinitions, remoteDefinitions;
      var ok := RegisterLocalBuffer("name0", "pass0", 18);
      ghost var local1 := localDefinitions;
      assert local1 == local + [LocalDefinition("name0", "pass0", 18)];
      ok := RegisterLocalBuffer("name0", "pass0", 17);
      assert localDefinitions == local1;
      assert "name1" !in localNames by { assert "name0" != "name1"; }
      ok := RegisterLocalBuffer("name1", "pass0", 20);
      assert localDefinitions == local1 + [LocalDefinition("name1", "pass0", 20)];
      var key := RegisterRemoteBuffer("name0", "pass1", "ipaddr0");
      ghost var remote1 := remoteDefinitions;
      assert remote1 == remote + [RemoteDefinition("name0", "pass1", "ipaddr0")];
      key := RegisterRemoteBuffer("name0", "pass1", "ipaddr0");
      assert remoteDefinitions == remote1;
      assert "name1" !in remoteNames by { assert "name0" != "name1"; }
      key := RegisterRemoteBuffer("name1", "pass1", "ipaddr0");
      assert remoteDefinitions == remote1 + [RemoteDefinition("name1", "pass1", "ipaddr0")];
    }

    method RegisterLocalBuffer(name: string, pass: string, length: int) returns (ok: bool)
      requires LocalValid()
      modifies this
      ensures LocalValid()
      ensures ok <==> name !in old(localNames)
      ensures localNames == old(localNames) + {name}
      ensures localDefinitions == old(localDefinitions) + (if ok then [LocalDefinition(name, pass, length)] else [])
      ensures remoteNames == old(remoteNames) && remoteDefinitions == old(remoteDefinitions)
    {
      if name !in localNames {
        localNames := localNames + {name};
        localDefinitions := localDefinitions + [LocalDefinition(name, pass, length)];
        assert LocalNames(localDefinitions, localBase) == LocalNames(old(localDefinitions), localBase) + {name} by {
          forall n ensures n in LocalNames(localDefinitions, localBase) <==> n in LocalNames(old(localDefinitions), localBase) + {name} {
            if n in LocalNames(localDefinitions, localBase) {
              var i :| localBase <= i < |localDefinitions| && localDefinitions[i].name == n;
              if i < |old(localDefinitions)| { assert old(localDefinitions)[i].name == n; }
            }
            if n in LocalNames(old(localDefinitions), localBase) {
              var i :| localBase <= i < |old(localDefinitions)| && old(localDefinitions)[i].name == n;
              assert localDefinitions[i].name == n;
            }
            if n == name {
              assert localDefinitions[|localDefinitions| - 1].name == n;
            }
          }
        }
        return true;
      }
      return false;
    }

    /** Returns the buffer's key, or "" for a name registered before. */
    method RegisterRemoteBuffer(name: string, pass: string, ipaddr: string) returns (key: string)
      requires RemoteValid()
      modifies this
      ensures RemoteValid()
      ensures key == if name in old(remoteNames) then "" else BufferKey(ipaddr, name)
      ensures key == "" <==> name in old(remoteNames)
      ensures remoteNames == old(remoteNames) + {name}
      ensures remoteDefinitions == old(remoteDefinitions) + (if name in old(remoteNames) then [] else [RemoteDefinition(name, pass, ipaddr)])
      ensures localNames == old(localNames) && localDefinitions == old(localDefinitions)
    {
      if name !in remoteNames {
        remoteNames := remoteNames + {name};
        remoteDefinitions := remoteDefinitions + [RemoteDefinition(name, pass, ipaddr)];
        assert RemoteNames(remoteDefinitions, remoteBase) == RemoteNames(old(remoteDefinitions), remoteBase) + {name} by {
          forall n ensures n in RemoteNames(remoteDefinitions, remoteBase) <==> n in RemoteNames(old(remoteDefinitions), remoteBase) + {name} {
            if n in RemoteNames(remoteDefinitions, remoteBase) {
              var i :| remoteBase <= i < |remoteDefinitions| && remoteDefinitions[i].name == n;
              if i < |old(remoteDefinitions)| { assert old(remoteDefinitions)[i].name == n; }
            }
            if n in RemoteNames(old(remoteDefinitions), remoteBase) {
              var i :| remoteBase <= i < |old(remoteDefinitions)| && old(remoteDefinitions)[i].name == n;
              assert remoteDefinitions[i].name == n;
            }
            if n == name {
              assert remoteDefinitions[|remoteDefinitions| - 1].name == n;
            }
          }
        }
        BufferKeyNotEmpty(ipaddr, name);
        return BufferKey(ipaddr, name);
      }
      return "";
    }
  }
}

/** The second prototype client: registering a local buffer appends its
    definition to the shared vector without any check; registering a
    remote buffer only computes its key. */
module PrototypeClient {
  import opened PrototypeKeys

  datatype Definition = Definition(name: string, ipaddr: string, pass: string)

  class Client {
    /** The shared definition vector. */
    var definitions: seq<Definition>

    /** Attaches to a vector already holding `existing`, then runs
        initialize(). */
    constructor (existing: seq<Definition>)
      ensures definitions == existing + [Definition("somename", "someaddr", "somepass")]
    {
      definitions := existing;
      new;
      Initialize();
    }

    method Initialize()
      modifies this
      ensures definitions == old(definitions) + [Definition("somename", "someaddr", "somepass")]
    {
      var key := RegisterLocalBuffer("somename", "someaddr", "somepass");
    }

    /** Appends one definition, even for a name already present. */
    method RegisterLocalBuffer(name: string, ipaddr: string, pass: string) returns (key: string)
      modifies this
      ensures definitions == old(definitions) + [Definition(name, ipaddr, pass)]
      ensures key == BufferKey(ipaddr, name)
    {
      definitions := definitions + [Definition(name, ipaddr, pass)];
      key := ipaddr + "_" + name;
    }

    /** Only the key; the definition vector is left alone (the password is
        ignored). */
    function RegisterRemoteBuffer(name: string, ipaddr: string, pass: string): (key: string)
      ensures |key| > |ipaddr| && key[..|ipaddr|] == ipaddr && key[|ipaddr| + 1..] == name
    {
      BufferKey(ipaddr, name)
    }
  }

  /** Registering the same local buffer twice on one client leaves two
      copies of its definition and yields the same key both times: the
      second prototype does not deduplicate. */
  method RegisteringTwiceDuplicates(c: Client, name: string, ipaddr: string, pass: string) returns (k1: string, k2: string)
    modifies c
    ensures c.definitions == old(c.definitions) + [Definition(name, ipaddr, pass), Definition(name, ipaddr, pass)]
    ensures |c.definitions| == |old(c.definitions)| + 2
    ensures k1 == k2 == BufferKey(ipaddr, name)
  {
    k1 := c.RegisterLocalBuffer(name, ipaddr, pass);
    k2 := c.RegisterLocalBuffer(name, ipaddr, pass);
  }
}
