/** Configuration documents: redaction, and the back-fill's two-level merge (shared/config/Config.cpp). */
module ConfigDocs {
  import opened Bytes

  /** `Atom` is any scalar, the JSON null included. */
  datatype Json = Obj(fields: map<string, Json>) | Arr(items: seq<Json>) | Atom(text: string)

  const Empty: Json := Obj(map[])

  /** The value at a path of object keys. */
  function Lookup(j: Json, path: seq<string>): Option<Json> {
    if path == [] then Some(j)
    else if j.Obj? && path[0] in j.fields then Lookup(j.fields[path[0]], path[1..])
    else None
  }

  // ---- Redaction ----

  const PASSWORD: seq<string> := ["pretzel", "database", "password"]
  const ADMIN: seq<string> := ["pretzel", "console", "admin"]

  ghost predicate NoSecrets(j: Json) {
    Lookup(j, PASSWORD).None? && Lookup(j, ADMIN).None?
  }

  function Erased(fields: map<string, Json>, block: string, key: string): map<string, Json> {
    if block in fields && fields[block].Obj? then fields[block := Obj(fields[block].fields - {key})] else fields
  }

  /** `redactSecretsForPersist`. */
  function Redact(root: Json): Json {
    if !root.Obj? then root
    else if "pretzel" !in root.fields || !root.fields["pretzel"].Obj? then root
    else
      var s := Erased(root.fields["pretzel"].fields, "database", "password");
      Obj(root.fields["pretzel" := Obj(Erased(s, "console", "admin"))])
  }

  /** The document without what is at `path`, if its containers are objects. */
  ghost function Without(j: Json, path: seq<string>): Json
    requires path != []
  {
    if !j.Obj? || path[0] !in j.fields then j
    else if |path| == 1 then Obj(j.fields - {path[0]})
    else Obj(j.fields[path[0] := Without(j.fields[path[0]], path[1..])])
  }

  /** Removing a path removes what lies below it and nothing beside it; the containers above it stay. */
  lemma {:induction false} WithoutExactly(j: Json, path: seq<string>, q: seq<string>)
    requires path != []
    ensures path <= q ==> Lookup(Without(j, path), q) == None
    ensures !(path <= q) && !(q <= path) ==> Lookup(Without(j, path), q) == Lookup(j, q)
    ensures q <= path && q != path ==>
      && (Lookup(Without(j, path), q).Some? <==> Lookup(j, q).Some?)
      && (Lookup(j, q).Some? ==> Lookup(Without(j, path), q).value == Without(Lookup(j, q).value, path[|q|..]))
    decreases |path|
  {
    if q != [] && j.Obj? && path[0] in j.fields && |path| > 1 {
      assert path == [path[0]] + path[1..] && q == [q[0]] + q[1..];
      if q[0] == path[0] {
        WithoutExactly(j.fields[path[0]], path[1..], q[1..]);
        assert path <= q <==> path[1..] <= q[1..];
        assert q <= path <==> q[1..] <= path[1..];
        if q <= path {
          assert path[1..][|q[1..]|..] == path[|q|..];
        }
      }
    } else if q == [] {
      assert path[0..] == path;
    } else {
      assert path == [path[0]] + path[1..] && q == [q[0]] + q[1..];
      assert |path| == 1 && q[0] == path[0] ==> path <= q;
    }
  }

  lemma EraseIsWithout(fields: map<string, Json>, block: string, key: string)
    ensures Obj(Erased(fields, block, key)) == Without(Obj(fields), [block, key])
  {
    assert [block, key][1..] == [key];
    if block in fields && !fields[block].Obj? {
      assert fields[block := fields[block]] == fields;
    } else if block in fields && key !in fields[block].fields {
      assert fields[block].fields - {key} == fields[block].fields;
      assert fields[block := fields[block]] == fields;
    }
  }

  /** Redaction removes the two secrets wherever they are, and that is all it does. */
  lemma RedactIsWithout(root: Json)
    ensures Redact(root) == Without(Without(root, PASSWORD), ADMIN)
  {
    assert PASSWORD[1..] == ["database", "password"] && ADMIN[1..] == ["console", "admin"];
    if root.Obj? && "pretzel" in root.fields {
      var p := root.fields["pretzel"];
      if p.Obj? {
        EraseIsWithout(p.fields, "database", "password");
        EraseIsWithout(Erased(p.fields, "database", "password"), "console", "admin");
      } else {
        assert root.fields["pretzel" := p] == root.fields;
      }
    }
  }

  lemma Unrelated()
    ensures !(PASSWORD <= ADMIN) && !(ADMIN <= PASSWORD)
  {
    assert PASSWORD[1] == "database" && ADMIN[1] == "console";
    assert PASSWORD[1][0] != ADMIN[1][0];
  }

  /** Nothing at or below either secret is stored, and every path clear of both reads as before. */
  lemma RedactExactly(root: Json, q: seq<string>)
    ensures NoSecrets(Redact(root))
    ensures PASSWORD <= q || ADMIN <= q ==> Lookup(Redact(root), q) == None
    ensures !(PASSWORD <= q) && !(q <= PASSWORD) && !(ADMIN <= q) && !(q <= ADMIN) ==>
      Lookup(Redact(root), q) == Lookup(root, q)
  {
    RedactIsWithout(root);
    RemovedTwice(root, PASSWORD);
    RemovedTwice(root, ADMIN);
    RemovedTwice(root, q);
  }

  lemma RemovedTwice(root: Json, q: seq<string>)
    ensures PASSWORD <= q || ADMIN <= q ==> Lookup(Without(Without(root, PASSWORD), ADMIN), q) == None
    ensures !(PASSWORD <= q) && !(q <= PASSWORD) && !(ADMIN <= q) && !(q <= ADMIN) ==>
      Lookup(Without(Without(root, PASSWORD), ADMIN), q) == Lookup(root, q)
  {
    Unrelated();
    var r := Without(root, PASSWORD);
    WithoutExactly(root, PASSWORD, q);
    WithoutExactly(r, ADMIN, q);
    if PASSWORD <= q && !(ADMIN <= q) {
      assert q[..3] == PASSWORD;
      assert !(q <= ADMIN);
    }
  }

  // ---- What the back-fill adds ----

  /** Keys that begin with two slashes are the template's comments. */
  predicate Comment(key: string) {
    |key| >= 2 && key[0] == '/' && key[1] == '/'
  }

  lemma CommentsBeginSo(key: string)
    ensures Comment(key) <==> "//" <= key
  {
    if |key| >= 2 {
      assert "//" <= key <==> key[..2] == "//";
    }
  }

  function Missing(have: map<string, Json>, wanted: map<string, Json>): map<string, Json> {
    map d | d in wanted && !Comment(d) && d !in have :: wanted[d]
  }

  /** A scope that is absent, or that lacks some domain. */
  predicate Lacks(active: map<string, Json>, startup: map<string, Json>, k: string) {
    && k in startup && !Comment(k)
    && (k in active ==> active[k].Obj? && startup[k].Obj? && Missing(active[k].fields, startup[k].fields) != map[])
  }

  function Addition(active: map<string, Json>, startup: map<string, Json>, k: string): Json
    requires Lacks(active, startup, k)
  {
    if k in active then Obj(Missing(active[k].fields, startup[k].fields)) else startup[k]
  }

  function Additions(active: map<string, Json>, startup: map<string, Json>): map<string, Json> {
    map k | k in startup && Lacks(active, startup, k) :: Addition(active, startup, k)
  }

  // ---- The store's `||` ----

  function Elements(j: Json): seq<Json> {
    if j.Arr? then j.items else [j]
  }

  /** Two objects are united, the right one winning; anything else is concatenated as arrays. */
  function Concat(a: Json, b: Json): Json {
    if a.Obj? && b.Obj? then Obj(a.fields + b.fields) else Arr(Elements(a) + Elements(b))
  }

  function Rebuilt(doc: Json, k: string, v: Json): Json {
    Concat(if doc.Obj? && k in doc.fields then doc.fields[k] else Empty, v)
  }

  /** The UPDATE: each added scope is rebuilt from what is stored, then only those scopes are replaced. */
  function Merged(doc: Json, additions: map<string, Json>): Json {
    Concat(doc, Obj(map k | k in additions :: Rebuilt(doc, k, additions[k])))
  }

  function BackFilled(doc: Json, startup: Json): Json
    requires doc.Obj? && startup.Obj?
  {
    Merged(doc, Additions(doc.fields, startup.fields))
  }

  // ---- What it amounts to ----

  /** Scope `k` after the back-fill, scope by scope. */
  lemma BackFillScope(doc: Json, startup: Json, k: string)
    requires doc.Obj? && startup.Obj?
    ensures var after := BackFilled(doc, startup);
      && after.Obj?
      && (k in after.fields <==> k in doc.fields || (k in startup.fields && !("//" <= k)))
      && (k in doc.fields && !(k in startup.fields && !("//" <= k) && doc.fields[k].Obj? && startup.fields[k].Obj?) ==>
            after.fields[k] == doc.fields[k])
      && (k !in doc.fields && k in after.fields ==>
            after.fields[k] ==
              if startup.fields[k].Obj? then startup.fields[k] else Arr([Empty] + Elements(startup.fields[k])))
  {
    var d, s := doc.fields, startup.fields;
    CommentsBeginSo(k);
    var add := Additions(d, s);
    assert k in add <==> Lacks(d, s, k);
    if k !in d && k in add && s[k].Obj? {
      assert map[] + s[k].fields == s[k].fields;
    }
  }

  /** A domain of a scope that both documents hold as an object: kept if it was there, else added unless a comment. */
  lemma BackFillDomain(doc: Json, startup: Json, k: string, d: string)
    requires doc.Obj? && startup.Obj? && k in doc.fields && k in startup.fields && !("//" <= k)
    requires doc.fields[k].Obj? && startup.fields[k].Obj?
    ensures var after := BackFilled(doc, startup);
      var have, wanted := doc.fields[k].fields, startup.fields[k].fields;
      && after.Obj? && k in after.fields && after.fields[k].Obj?
      && (d in after.fields[k].fields <==> d in have || (d in wanted && !("//" <= d)))
      && (d in after.fields[k].fields ==> after.fields[k].fields[d] == if d in have then have[d] else wanted[d])
  {
    var have, wanted := doc.fields[k].fields, startup.fields[k].fields;
    CommentsBeginSo(k);
    CommentsBeginSo(d);
    var add := Additions(doc.fields, startup.fields);
    assert d in Missing(have, wanted) <==> d in wanted && !Comment(d) && d !in have;
    if Missing(have, wanted) != map[] {
      assert Lacks(doc.fields, startup.fields, k);
      assert add[k] == Obj(Missing(have, wanted));
    } else {
      assert k !in add;
      assert d !in Missing(have, wanted);
    }
  }

  /** Whatever the operator's document says about a domain, it still says. */
  lemma BackFillKeepsDomains(doc: Json, startup: Json, k: string, d: string)
    requires doc.Obj? && startup.Obj? && Lookup(doc, [k, d]).Some?
    ensures Lookup(BackFilled(doc, startup), [k, d]) == Lookup(doc, [k, d])
  {
    TwoKeys(doc, k, d);
    TwoKeys(BackFilled(doc, startup), k, d);
    BackFillScope(doc, startup, k);
    if k in startup.fields && !("//" <= k) && startup.fields[k].Obj? {
      BackFillDomain(doc, startup, k, d);
    }
  }

  lemma TwoKeys(j: Json, k: string, d: string)
    ensures Lookup(j, [k, d]) ==
      if j.Obj? && k in j.fields && j.fields[k].Obj? && d in j.fields[k].fields
      then Some(j.fields[k].fields[d]) else None
  {
    assert [k, d][1..] == [d] && [d][1..] == [];
    if j.Obj? && k in j.fields {
      assert Lookup(j, [k, d]) == Lookup(j.fields[k], [d]);
      if j.fields[k].Obj? && d in j.fields[k].fields {
        assert Lookup(j.fields[k], [d]) == Lookup(j.fields[k].fields[d], []);
      }
    }
  }

  lemma ThreeKeys(j: Json, k: string, d: string, e: string)
    ensures Lookup(j, [k, d, e]) == match Lookup(j, [k, d]) case Some(x) => Lookup(x, [e]) case None => None
  {
    TwoKeys(j, k, d);
    assert [k, d, e][1..] == [d, e] && [d, e][1..] == [e];
    if j.Obj? && k in j.fields {
      assert Lookup(j, [k, d, e]) == Lookup(j.fields[k], [d, e]);
      if j.fields[k].Obj? && d in j.fields[k].fields {
        assert Lookup(j.fields[k], [d, e]) == Lookup(j.fields[k].fields[d], [e]);
      }
    }
  }

  /** A second back-fill from the same startup document finds nothing to add, whatever the scopes hold. */
  lemma BackFillIsIdempotent(doc: Json, startup: Json)
    requires doc.Obj? && startup.Obj?
    ensures var after := BackFilled(doc, startup);
      after.Obj? && Additions(after.fields, startup.fields) == map[] && BackFilled(after, startup) == after
  {
    var after := BackFilled(doc, startup);
    NothingToMerge(after);
    forall k ensures after.Obj? && !Lacks(after.fields, startup.fields, k) {
      NothingLeft(doc, startup, k);
    }
  }

  lemma NothingToMerge(doc: Json)
    requires doc.Obj?
    ensures Merged(doc, map[]) == doc
  {
    assert doc.fields + map[] == doc.fields;
  }

  lemma NothingLeft(doc: Json, startup: Json, k: string)
    requires doc.Obj? && startup.Obj?
    ensures var after := BackFilled(doc, startup); after.Obj? && !Lacks(after.fields, startup.fields, k)
  {
    var after := BackFilled(doc, startup);
    BackFillScope(doc, startup, k);
    CommentsBeginSo(k);
    if Lacks(after.fields, startup.fields, k) {
      var d :| d in Missing(after.fields[k].fields, startup.fields[k].fields);
      CommentsBeginSo(d);
      if k in doc.fields {
        BackFillDomain(doc, startup, k, d);
      }
      assert false;
    }
  }

  /** An absent scope is added as the startup document has it if and only if it is an object there. */
  lemma AbsentScopeAddedAsIsIff(doc: Json, startup: Json, k: string)
    requires doc.Obj? && startup.Obj? && k in startup.fields && !("//" <= k) && k !in doc.fields
    ensures Lookup(BackFilled(doc, startup), [k]) == Some(startup.fields[k]) <==> startup.fields[k].Obj?
  {
    BackFillScope(doc, startup, k);
    var v := startup.fields[k];
    assert [k][1..] == [];
    assert Lookup(BackFilled(doc, startup), [k]) == Lookup(BackFilled(doc, startup).fields[k], []);
    if !v.Obj? {
      assert |([Empty] + Elements(v))| == 1 + |Elements(v)|;
    }
  }

  /** No secret comes in with a back-fill from a redacted document. */
  lemma BackFillKeepsSecretsOut(doc: Json, startup: Json)
    requires doc.Obj? && startup.Obj? && NoSecrets(doc) && NoSecrets(startup)
    ensures NoSecrets(BackFilled(doc, startup))
  {
    DomainSecretsOut(doc, startup, "database", "password");
    DomainSecretsOut(doc, startup, "console", "admin");
  }

  lemma DomainSecretsOut(doc: Json, startup: Json, d: string, e: string)
    requires doc.Obj? && startup.Obj?
    requires Lookup(doc, ["pretzel", d, e]).None? && Lookup(startup, ["pretzel", d, e]).None?
    ensures Lookup(BackFilled(doc, startup), ["pretzel", d, e]).None?
  {
    var after := BackFilled(doc, startup);
    var k := "pretzel";
    ThreeKeys(doc, k, d, e);
    ThreeKeys(startup, k, d, e);
    ThreeKeys(after, k, d, e);
    TwoKeys(doc, k, d);
    TwoKeys(startup, k, d);
    TwoKeys(after, k, d);
    BackFillScope(doc, startup, k);
    if k in doc.fields && k in startup.fields && !("//" <= k) && doc.fields[k].Obj? && startup.fields[k].Obj? {
      BackFillDomain(doc, startup, k, d);
    }
  }
}
