/** The external audio engine (the `sox` and `soxi` processes) and the file
    system, reduced to what the pipeline can observe: a log of the commands it
    ran and the set of paths that exist. */
module Engine {
  import opened Text

  /** One process invocation as the log records it: a `sox` command and the
      file it writes, or a `soxi` query. */
  datatype Call = Sox(tokens: seq<string>, output: string) | Soxi(tokens: seq<string>)

  /** Names `tempfile.NamedTemporaryFile` hands out live under /tmp. */
  predicate IsTempPath(p: string)
  {
    StartsWith(p, "/tmp/")
  }

  /** The sox calls of `plan` that exit non-zero, given which token lists
      fail. */
  predicate Fails(fails: seq<string> -> bool, c: Call)
  {
    c.Sox? && fails(c.tokens)
  }

  /** Every call of `plan` succeeds. */
  predicate Succeeds(fails: seq<string> -> bool, plan: seq<Call>)
  {
    forall k :: 0 <= k < |plan| ==> !Fails(fails, plan[k])
  }

  /** What a caller that runs `plan` with `check=True` issues: every call up
      to and including the first one that fails, and no call after it. */
  function Issued(fails: seq<string> -> bool, plan: seq<Call>): (r: seq<Call>)
    ensures r <= plan
    ensures Succeeds(fails, plan) ==> r == plan
    ensures !Succeeds(fails, plan) ==> r != [] && Fails(fails, r[|r| - 1])
  {
    if plan == [] then []
    else if Fails(fails, plan[0]) then [plan[0]]
    else
      var rest := Issued(fails, plan[1..]);
      assert Succeeds(fails, plan) <==> Succeeds(fails, plan[1..]) by {
        assert forall k :: 0 < k < |plan| ==> plan[k] == plan[1..][k - 1];
      }
      [plan[0]] + rest
  }

  /** The files the calls of `calls` that succeed write, in order. */
  function Written(fails: seq<string> -> bool, calls: seq<Call>): set<string>
  {
    if calls == [] then {}
    else
      var c := calls[|calls| - 1];
      Written(fails, calls[..|calls| - 1]) + (if c.Sox? && !fails(c.tokens) then {c.output} else {})
  }

  /** One more call adds its output exactly when it succeeds. */
  lemma WrittenSnoc(fails: seq<string> -> bool, calls: seq<Call>, c: Call)
    ensures !Fails(fails, c) && c.Sox? ==> Written(fails, calls + [c]) == Written(fails, calls) + {c.output}
    ensures Fails(fails, c) ==> Written(fails, calls + [c]) == Written(fails, calls)
  {
    assert (calls + [c])[..|calls|] == calls;
  }

  /** Issuing one plan and then another, when the first succeeds. */
  lemma {:induction false} IssuedAppend(fails: seq<string> -> bool, p: seq<Call>, q: seq<Call>)
    requires Succeeds(fails, p)
    ensures Issued(fails, p + q) == p + Issued(fails, q)
    decreases |p|
  {
    if p != [] {
      var pq := p + q;
      assert pq[0] == p[0];
      assert pq[1..] == p[1..] + q;
      assert !Fails(fails, p[0]);
      assert Succeeds(fails, p[1..]) by {
        forall k | 0 <= k < |p[1..]| ensures !Fails(fails, p[1..][k]) {
          assert p[1..][k] == p[k + 1];
        }
      }
      IssuedAppend(fails, p[1..], q);
      assert Issued(fails, pq) == [p[0]] + Issued(fails, pq[1..]);
      ConsTail(p, Issued(fails, q));
    } else {
      assert p + q == q;
    }
  }

  /** Putting a sequence's head back in front of its tail, before `t`. */
  lemma ConsTail(p: seq<Call>, t: seq<Call>)
    requires p != []
    ensures [p[0]] + (p[1..] + t) == p + t
  {
    assert [p[0]] + p[1..] == p;
  }

  /** A succeeding plan extended by a call that succeeds still succeeds. */
  lemma SucceedsSnoc(fails: seq<string> -> bool, plan: seq<Call>, c: Call)
    requires Succeeds(fails, plan) && !Fails(fails, c)
    ensures Succeeds(fails, plan + [c])
  {
    forall k | 0 <= k < |plan| + 1 ensures !Fails(fails, (plan + [c])[k]) {
      if k < |plan| {
        assert (plan + [c])[k] == plan[k];
      }
    }
  }

  /** A plan of two parts succeeds exactly when both parts do. */
  lemma SucceedsAppend(fails: seq<string> -> bool, p: seq<Call>, q: seq<Call>)
    ensures Succeeds(fails, p + q) <==> Succeeds(fails, p) && Succeeds(fails, q)
  {
    if Succeeds(fails, p) && Succeeds(fails, q) {
      forall k | 0 <= k < |p + q| ensures !Fails(fails, (p + q)[k]) {
        if k < |p| {
          assert (p + q)[k] == p[k];
        } else {
          assert (p + q)[k] == q[k - |p|];
        }
      }
    }
    if Succeeds(fails, p + q) {
      forall k | 0 <= k < |q| ensures !Fails(fails, q[k]) {
        assert (p + q)[|p| + k] == q[k];
      }
      forall k | 0 <= k < |p| ensures !Fails(fails, p[k]) {
        assert (p + q)[k] == p[k];
      }
    }
  }

  /** A succeeding plan followed by one that fails: the caller issues the
      first plan whole and the second up to its failing call, which is the
      last call issued. */
  lemma IssuedAfter(fails: seq<string> -> bool, p: seq<Call>, q: seq<Call>)
    requires Succeeds(fails, p) && !Succeeds(fails, q)
    ensures Issued(fails, p + q) == p + Issued(fails, q)
    ensures Issued(fails, p + q)[|Issued(fails, p + q)| - 1] == Issued(fails, q)[|Issued(fails, q)| - 1]
    ensures !Succeeds(fails, p + q)
  {
    IssuedAppend(fails, p, q);
    SucceedsAppend(fails, p, q);
  }

  /** A failing plan followed by anything: nothing after the failure is
      issued. */
  lemma {:induction false} IssuedBefore(fails: seq<string> -> bool, p: seq<Call>, q: seq<Call>)
    requires !Succeeds(fails, p)
    ensures Issued(fails, p + q) == Issued(fails, p)
    ensures !Succeeds(fails, p + q)
    decreases |p|
  {
    var pq := p + q;
    assert pq[0] == p[0];
    if !Fails(fails, p[0]) {
      assert pq[1..] == p[1..] + q;
      assert !Succeeds(fails, p[1..]) by {
        var k :| 0 <= k < |p| && Fails(fails, p[k]);
        assert p[1..][k - 1] == p[k];
      }
      IssuedBefore(fails, p[1..], q);
    }
    SucceedsAppend(fails, p, q);
  }

  /** A plan whose calls before `c` succeed and whose call `c` fails: the
      caller issues exactly the calls up to `c`. */
  lemma IssuedStopsAt(fails: seq<string> -> bool, plan: seq<Call>, pre: seq<Call>, c: Call)
    requires pre + [c] <= plan
    requires Succeeds(fails, pre) && Fails(fails, c)
    ensures Issued(fails, plan) == pre + [c]
    ensures !Succeeds(fails, plan)
  {
    var rest := plan[|pre|..];
    assert plan == pre + rest;
    assert rest[0] == c;
    IssuedAppend(fails, pre, rest);
    assert Issued(fails, rest) == [c];
    assert plan[|pre|] == c;
  }

  class Engine {
    /** The paths that exist, directories included. */
    var files: set<string>
    /** Every process run so far, oldest first. */
    var log: seq<Call>
    /** Which sox token lists exit non-zero. */
    const fails: seq<string> -> bool
    /** What soxi prints on stdout for a token list. */
    const answers: seq<string> -> string

    constructor (files0: set<string>, fails: seq<string> -> bool, answers: seq<string> -> string)
      ensures files == files0 && log == []
      ensures this.fails == fails && this.answers == answers
    {
      files := files0;
      log := [];
      this.fails := fails;
      this.answers := answers;
    }

    /** `subprocess.run(tokens, check=True)` of a sox command that writes
        `output`: logged; on success the output exists, on failure nothing
        changes and the caller raises. */
    method Sox(tokens: seq<string>, output: string) returns (ok: bool)
      modifies this`log, this`files
      ensures ok == !fails(tokens)
      ensures log == old(log) + [Call.Sox(tokens, output)]
      ensures files == if ok then old(files) + {output} else old(files)
    {
      log := log + [Call.Sox(tokens, output)];
      ok := !fails(tokens);
      if ok {
        files := files + {output};
      }
    }

    /** `subprocess.run(tokens, stdout=PIPE)` of a soxi query: logged, and
        its exit status is not looked at. */
    method Soxi(tokens: seq<string>) returns (stdout: string)
      modifies this`log
      ensures log == old(log) + [Call.Soxi(tokens)]
      ensures stdout == answers(tokens)
    {
      log := log + [Call.Soxi(tokens)];
      stdout := answers(tokens);
    }

    /** `os.path.exists` */
    predicate Exists(path: string)
      reads this
    {
      path in files
    }

    /** `os.remove`: raises (here: returns false) when the path is absent. */
    method Remove(path: string) returns (ok: bool)
      modifies this`files
      ensures ok == (path in old(files))
      ensures files == old(files) - {path}
    {
      ok := path in files;
      files := files - {path};
    }

    /** `os.makedirs(path, exist_ok=True)` */
    method MakeDirs(path: string)
      modifies this`files
      ensures files == old(files) + {path}
    {
      files := files + {path};
    }

    /** `tempfile.NamedTemporaryFile(suffix=".wav", delete=False)`: creates an
        empty file under a name that did not exist. */
    method NamedTemp() returns (path: string)
      modifies this`files
      ensures IsTempPath(path) && EndsWith(path, ".wav")
      ensures path !in old(files)
      ensures files == old(files) + {path}
    {
      var longest: nat := 0;
      var rest := files;
      while rest != {}
        invariant rest <= files
        invariant forall p :: p in files - rest ==> |p| <= longest
        decreases |rest|
      {
        var p :| p in rest;
        if |p| > longest {
          longest := |p|;
        }
        rest := rest - {p};
      }
      path := "/tmp/tmp" + seq(longest, _ => 'x') + ".wav";
      assert path[..5] == "/tmp/";
      files := files + {path};
    }
  }
}
