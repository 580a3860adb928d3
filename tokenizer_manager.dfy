/**
 * The tokenizer manager: a table from pipeline names to pipeline templates,
 * shared by every clone of the manager.
 *
 * The table is specified by the sequence of registrations made on it: the
 * entry under a name is the pipeline of the LAST registration of that name.
 */
module Registry {
  import opened Pipelines

  datatype Option<T> = None | Some(value: T)

  /** One `register(name, pipeline)` call. */
  datatype Registration = Registration(name: string, pipeline: Pipeline)

  /** The names registered at least once in `h`. */
  function Names(h: seq<Registration>): set<string>
  {
    set i | 0 <= i < |h| :: h[i].name
  }

  /** The pipeline of the last registration of `name` in `h`, if any (the reference for last-write-wins). */
  function LastWrite(h: seq<Registration>, name: string): Option<Pipeline>
  {
    if h == [] then None
    else if h[|h| - 1].name == name then Some(h[|h| - 1].pipeline)
    else LastWrite(h[..|h| - 1], name)
  }

  /** The map obtained by inserting the registrations of `h` in order into an empty map. */
  function Replay(h: seq<Registration>): map<string, Pipeline>
  {
    if h == [] then map[]
    else Replay(h[..|h| - 1])[h[|h| - 1].name := h[|h| - 1].pipeline]
  }

  /** The replayed map answers every lookup as the last registration does, and holds exactly the registered names. */
  lemma {:induction false} ReplayIsLastWrite(h: seq<Registration>, name: string)
    ensures name in Replay(h) <==> LastWrite(h, name).Some?
    ensures name in Replay(h) ==> LastWrite(h, name) == Some(Replay(h)[name])
    ensures Replay(h).Keys == Names(h)
  {
    if h != [] {
      var init := h[..|h| - 1];
      ReplayIsLastWrite(init, name);
      assert h == init + [h[|h| - 1]];
      assert Names(h) == Names(init) + {h[|h| - 1].name} by {
        forall n | n in Names(h) ensures n in Names(init) + {h[|h| - 1].name} {
          var i :| 0 <= i < |h| && h[i].name == n;
          if i < |h| - 1 { assert init[i] == h[i]; }
        }
        forall n | n in Names(init) ensures n in Names(h) {
          var i :| 0 <= i < |init| && init[i].name == n;
          assert h[i] == init[i];
        }
      }
    }
  }

  /** A name that was never registered has no entry. */
  lemma {:induction false} NeverRegisteredIsAbsent(h: seq<Registration>, name: string)
    requires name !in Names(h)
    ensures LastWrite(h, name) == None
  {
    if h != [] {
      var init := h[..|h| - 1];
      assert h[|h| - 1].name in Names(h);
      assert Names(init) <= Names(h) by {
        forall n | n in Names(init) ensures n in Names(h) {
          var i :| 0 <= i < |init| && init[i].name == n;
          assert h[i] == init[i];
        }
      }
      NeverRegisteredIsAbsent(init, name);
    }
  }

  /**
   * Last write wins: after `register(name, p)`, whatever is registered under
   * other names later does not hide `p`, and a later registration of `name`
   * replaces it.
   */
  lemma {:induction false} LastWriteWins(h: seq<Registration>, name: string, p: Pipeline, later: seq<Registration>)
    ensures name !in Names(later) ==> LastWrite(h + [Registration(name, p)] + later, name) == Some(p)
    ensures name in Names(later) ==> LastWrite(h + [Registration(name, p)] + later, name) == LastWrite(later, name)
    decreases |later|
  {
    var all := h + [Registration(name, p)] + later;
    if later == [] {
      assert all == h + [Registration(name, p)];
    } else {
      var init := later[..|later| - 1];
      var last := later[|later| - 1];
      assert all == (h + [Registration(name, p)] + init) + [last];
      assert all[..|all| - 1] == h + [Registration(name, p)] + init;
      LastWriteWins(h, name, p, init);
      assert Names(later) == Names(init) + {last.name} by {
        assert later == init + [last];
        forall n | n in Names(later) ensures n in Names(init) + {last.name} {
          var i :| 0 <= i < |later| && later[i].name == n;
          if i < |later| - 1 { assert init[i] == later[i]; }
        }
        forall n | n in Names(init) ensures n in Names(later) {
          var i :| 0 <= i < |init| && init[i].name == n;
          assert later[i] == init[i];
        }
      }
    }
  }

  /** The pipelines `Default::default` registers, in the order it registers them. */
  function DefaultRegistrations(): seq<Registration>
  {
    [ Registration("raw", Tokenizer(Raw)),
      Registration("default",
        Tokenizer(Simple).Filter(RemoveLong(DefaultMaxTokenLength)).Filter(LowerCaser)),
      Registration("en_stem",
        Tokenizer(Simple).Filter(RemoveLong(DefaultMaxTokenLength)).Filter(LowerCaser).Filter(Stemmer)),
      Registration("ja", Tokenizer(Japanese).Filter(RemoveLong(DefaultMaxTokenLength))) ]
  }

  /** The default table: exactly four names, each with its base tokenizer and its filters in attachment order. */
  lemma DefaultTableContents()
    ensures Replay(DefaultRegistrations()).Keys == {"raw", "default", "en_stem", "ja"}
    ensures Replay(DefaultRegistrations())["raw"].Base() == Raw
    ensures Replay(DefaultRegistrations())["raw"].Filters() == []
    ensures Replay(DefaultRegistrations())["default"].Base() == Simple
    ensures Replay(DefaultRegistrations())["default"].Filters() == [RemoveLong(40), LowerCaser]
    ensures Replay(DefaultRegistrations())["en_stem"].Base() == Simple
    ensures Replay(DefaultRegistrations())["en_stem"].Filters() == [RemoveLong(40), LowerCaser, Stemmer]
    ensures Replay(DefaultRegistrations())["ja"].Base() == Japanese
    ensures Replay(DefaultRegistrations())["ja"].Filters() == [RemoveLong(40)]
  {
    var h := DefaultRegistrations();
    ReplayIsLastWrite(h, "raw");
    assert Names(h) == {"raw", "default", "en_stem", "ja"} by {
      assert h[0].name == "raw" && h[1].name == "default" && h[2].name == "en_stem" && h[3].name == "ja";
    }
    assert Replay(h) == map["raw" := h[0].pipeline, "default" := h[1].pipeline,
                            "en_stem" := h[2].pipeline, "ja" := h[3].pipeline] by {
      assert Replay(h[..1]) == map["raw" := h[0].pipeline] by {
        assert h[..1][..0] == [];
      }
      assert h[..2][..1] == h[..1];
      assert h[..3][..2] == h[..2];
      assert h[..3] == h[..|h| - 1];
    }
  }

  /**
   * The `RwLock<HashMap<..>>` behind the manager's `Arc`. `history` records
   * every registration made through any manager sharing this table.
   */
  class Table {
    var entries: map<string, Pipeline>
    ghost var history: seq<Registration>

    ghost predicate Valid()
      reads this
    {
      entries == Replay(history)
    }

    /** `RwLock::new(HashMap::new())`: an empty table. */
    constructor ()
      ensures Valid() && history == [] && entries == map[]
    {
      entries := map[];
      history := [];
    }
  }

  class TokenizerManager {
    /** The `Arc`: every clone of a manager holds the same table. */
    const tokenizers: Table

    /** A manager over an existing table. */
    constructor Sharing(t: Table)
      ensures tokenizers == t
    {
      tokenizers := t;
    }

    /** `#[derive(Clone)]`: a new manager that shares this manager's table. */
    method Clone() returns (r: TokenizerManager)
      ensures fresh(r) && r != this
      ensures r.tokenizers == tokenizers
    {
      r := new TokenizerManager.Sharing(tokenizers);
    }

    /**
     * `register`: insert `p` under `name`, replacing any template already
     * there. Every other entry is left as it was.
     */
    method Register(name: string, p: Pipeline)
      requires tokenizers.Valid()
      modifies tokenizers
      ensures tokenizers.Valid()
      ensures tokenizers.history == old(tokenizers.history) + [Registration(name, p)]
      ensures tokenizers.entries == old(tokenizers.entries)[name := p]
      ensures tokenizers.entries.Keys == old(tokenizers.entries.Keys) + {name}
    {
      tokenizers.history := tokenizers.history + [Registration(name, p)];
      tokenizers.entries := tokenizers.entries[name := p];
      assert tokenizers.history[..|tokenizers.history| - 1] == old(tokenizers.history);
    }

    /**
     * `get`: a copy of the template last registered under `name`, or `None`
     * when the name was never registered. Reads the table and changes nothing.
     */
    function Get(name: string): (r: Option<Pipeline>)
      reads tokenizers
      requires tokenizers.Valid()
      ensures r == LastWrite(tokenizers.history, name)
      ensures r.Some? <==> name in tokenizers.entries
      ensures name !in Names(tokenizers.history) ==> r == None
    {
      ReplayIsLastWrite(tokenizers.history, name);
      if name in tokenizers.entries then Some(tokenizers.entries[name]) else None
    }

    /** `Default::default`: a fresh table with the four default pipelines, registered in order. */
    constructor Default()
      ensures fresh(tokenizers) && tokenizers.Valid()
      ensures tokenizers.history == DefaultRegistrations()
      ensures tokenizers.entries.Keys == {"raw", "default", "en_stem", "ja"}
    {
      tokenizers := new Table();
      new;
      Register("raw", Tokenizer(Raw));
      Register("default",
        Tokenizer(Simple).Filter(RemoveLong(DefaultMaxTokenLength)).Filter(LowerCaser));
      Register("en_stem",
        Tokenizer(Simple).Filter(RemoveLong(DefaultMaxTokenLength)).Filter(LowerCaser).Filter(Stemmer));
      Register("ja", Tokenizer(Japanese).Filter(RemoveLong(DefaultMaxTokenLength)));
      DefaultTableContents();
    }
  }

  /** A registration made through a clone is seen by a lookup through the original. */
  method RegisterThroughClone(m: TokenizerManager, name: string, p: Pipeline) returns (seen: Option<Pipeline>)
    requires m.tokenizers.Valid()
    modifies m.tokenizers
    ensures seen == Some(p)
    ensures m.tokenizers.Valid()
  {
    var c := m.Clone();
    c.Register(name, p);
    seen := m.Get(name);
  }

  /** Re-registering a name replaces the template: a later lookup sees only the newest one. */
  method ReRegister(m: TokenizerManager, name: string, first: Pipeline, second: Pipeline)
    returns (seen: Option<Pipeline>)
    requires m.tokenizers.Valid()
    modifies m.tokenizers
    ensures seen == Some(second)
    ensures m.tokenizers.Valid()
  {
    m.Register(name, first);
    m.Register(name, second);
    seen := m.Get(name);
  }

  /** Registering one name does not change what a lookup of any other name returns. */
  method RegisterLeavesOtherNames(m: TokenizerManager, name: string, p: Pipeline, other: string)
    returns (before: Option<Pipeline>, after: Option<Pipeline>)
    requires m.tokenizers.Valid()
    requires other != name
    modifies m.tokenizers
    ensures m.tokenizers.Valid()
    ensures before == after
  {
    before := m.Get(other);
    m.Register(name, p);
    after := m.Get(other);
  }

  /** Two successive lookups of the same name return equal results. */
  method GetTwice(m: TokenizerManager, name: string) returns (a: Option<Pipeline>, b: Option<Pipeline>)
    requires m.tokenizers.Valid()
    ensures a == b
    ensures a.Some? <==> name in m.tokenizers.entries
  {
    a := m.Get(name);
    b := m.Get(name);
  }
}
