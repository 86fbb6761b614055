/** Secrets replaced by tokens in the document shown to users, and put back when an edited document returns. */
module Masking {
  import opened Trees
  import opened Documents

  const SECRET_PREFIX := "__secret__:"

  /** A configuration value. Enumerations and paths count as the strings they are shown as. */
  datatype Value =
    | Model(fields: map<string, Value>)
    | Secret(secret: string)
    | Items(items: seq<Value>)
    | Dict(entries: map<string, Value>)
    | Str(s: string)
    | Num(n: int)

  /** The keyed hash: some text for every secret. */
  type Hash = string -> string

  function Token(hash: Hash, secret: string): string {
    SECRET_PREFIX + hash(secret)
  }

  predicate IsToken(s: string) {
    SECRET_PREFIX <= s
  }

  function Mask(hash: Hash, v: Value): Doc {
    match v
    case Model(fields) => Obj(map k | k in fields :: Mask(hash, fields[k]))
    case Secret(s) => Text(Token(hash, s))
    case Items(items) => List(seq(|items|, i requires 0 <= i < |items| => Mask(hash, items[i])))
    case Dict(entries) => Obj(map k | k in entries :: Mask(hash, entries[k]))
    case Str(s) => Text(s)
    case Num(n) => Other(n)
  }

  /** The same document with the secrets themselves. */
  function Reveal(v: Value): Doc {
    match v
    case Model(fields) => Obj(map k | k in fields :: Reveal(fields[k]))
    case Secret(s) => Text(s)
    case Items(items) => List(seq(|items|, i requires 0 <= i < |items| => Reveal(items[i])))
    case Dict(entries) => Obj(map k | k in entries :: Reveal(entries[k]))
    case Str(s) => Text(s)
    case Num(n) => Other(n)
  }

  /** The value has this secret in a place the masker knows about: in models and lists, but not in dictionaries. */
  ghost predicate Finds(v: Value, s: string) {
    match v
    case Model(fields) => exists k :: k in fields && Finds(fields[k], s)
    case Secret(t) => s == t
    case Items(items) => exists i :: 0 <= i < |items| && Finds(items[i], s)
    case _ => false
  }

  /** The value has this secret anywhere. */
  ghost predicate Holds(v: Value, s: string) {
    match v
    case Model(fields) => exists k :: k in fields && Holds(fields[k], s)
    case Secret(t) => s == t
    case Items(items) => exists i :: 0 <= i < |items| && Holds(items[i], s)
    case Dict(entries) => exists k :: k in entries && Holds(entries[k], s)
    case _ => false
  }

  /** No plain string looks like a token. */
  ghost predicate Plain(v: Value) {
    match v
    case Model(fields) => forall k :: k in fields ==> Plain(fields[k])
    case Items(items) => forall i :: 0 <= i < |items| ==> Plain(items[i])
    case Dict(entries) => forall k :: k in entries ==> Plain(entries[k])
    case Str(s) => !IsToken(s)
    case _ => true
  }

  // ---------------------------------------------------------------- what the masked document tells

  function Inside(v: Value, loc: Location): Option<Value>
    decreases |loc|
  {
    if loc == [] then Some(v)
    else
      match (v, loc[0])
      case (Model(fields), Name(k)) => if k in fields then Inside(fields[k], loc[1..]) else None
      case (Dict(entries), Name(k)) => if k in entries then Inside(entries[k], loc[1..]) else None
      case (Items(items), Index(i)) => if i < |items| then Inside(items[i], loc[1..]) else None
      case _ => None
  }

  lemma {:induction false} MaskedInside(hash: Hash, v: Value, loc: Location)
    ensures At(Mask(hash, v), loc) == if Inside(v, loc).Some? then Some(Mask(hash, Inside(v, loc).value)) else None
    decreases |loc|
  {
    if loc != [] {
      match (v, loc[0])
      case (Model(fields), Name(k)) => if k in fields { MaskedInside(hash, fields[k], loc[1..]); }
      case (Dict(entries), Name(k)) => if k in entries { MaskedInside(hash, entries[k], loc[1..]); }
      case (Items(items), Index(i)) => if i < |items| { MaskedInside(hash, items[i], loc[1..]); }
      case _ =>
    }
  }

  /** The masked document has the shape of the value; where there is a secret it has its token, and every text in it is
      such a token or a plain string of the value: no secret is told. */
  lemma NoSecretIsTold(hash: Hash, v: Value, loc: Location, s: string)
    ensures At(Mask(hash, v), loc).Some? <==> Inside(v, loc).Some?
    ensures Inside(v, loc) == Some(Secret(s)) ==> At(Mask(hash, v), loc) == Some(Text("__secret__:" + hash(s)))
    ensures Inside(v, loc) == Some(Str(s)) ==> At(Mask(hash, v), loc) == Some(Text(s))
    ensures At(Mask(hash, v), loc) == Some(Text(s)) ==>
              Inside(v, loc) == Some(Str(s))
              || exists t :: Inside(v, loc) == Some(Secret(t)) && s == "__secret__:" + hash(t)
  {
    MaskedInside(hash, v, loc);
  }

  // ---------------------------------------------------------------- unmasking

  type Known = map<string, string>

  datatype Key = Name(name: string) | Index(index: nat)

  type Location = seq<Key>

  datatype Unmasking = Unmasked(doc: Doc) | UnknownSecret(loc: Location)

  /** Every token in the document is known. */
  ghost predicate Clean(known: Known, d: Doc) {
    match d
    case Obj(fields) => forall k :: k in fields ==> Clean(known, fields[k])
    case List(items) => forall i :: 0 <= i < |items| ==> Clean(known, items[i])
    case Text(s) => IsToken(s) ==> s in known
    case Other(_) => true
  }

  /** The document with every known token replaced by its secret. */
  function PutSecrets(known: Known, d: Doc): Doc {
    match d
    case Obj(fields) => Obj(map k | k in fields :: PutSecrets(known, fields[k]))
    case List(items) => List(seq(|items|, i requires 0 <= i < |items| => PutSecrets(known, items[i])))
    case Text(s) => if IsToken(s) && s in known then Text(known[s]) else d
    case Other(_) => d
  }

  function At(d: Doc, loc: Location): Option<Doc>
    decreases |loc|
  {
    if loc == [] then Some(d)
    else
      match (d, loc[0])
      case (Obj(fields), Name(k)) => if k in fields then At(fields[k], loc[1..]) else None
      case (List(items), Index(i)) => if i < |items| then At(items[i], loc[1..]) else None
      case _ => None
  }

  /** An unknown token sits at this place. */
  predicate UnknownAt(known: Known, d: Doc, loc: Location) {
    var found := At(d, loc);
    found.Some? && found.value.Text? && IsToken(found.value.s) && found.value.s !in known
  }

  lemma {:induction false} UnknownMeansUnclean(known: Known, d: Doc, loc: Location)
    requires UnknownAt(known, d, loc)
    ensures !Clean(known, d)
    decreases |loc|
  {
    if loc != [] {
      match (d, loc[0])
      case (Obj(fields), Name(k)) => UnknownMeansUnclean(known, fields[k], loc[1..]);
      case (List(items), Index(i)) => UnknownMeansUnclean(known, items[i], loc[1..]);
    }
  }

  // ---------------------------------------------------------------- the masker

  class SecretMasker {
    const hash: Hash

    constructor (hash: Hash)
      ensures this.hash == hash
    {
      this.hash := hash;
    }

    /** Adds the secrets the value is found to have, under their tokens. */
    method Secrets(v: Value, known: Known) returns (more: Known)
      ensures forall t :: t in more <==> t in known || exists s :: Finds(v, s) && t == Token(hash, s)
      ensures forall t ::
              t in more ==> (t in known && more[t] == known[t]) || (Finds(v, more[t]) && t == Token(hash, more[t]))
      decreases v, 1
    {
      match v
      case Model(fields) => more := SecretsOfFields(v, known);
      case Secret(s) => more := known[Token(hash, s) := s];
      case Items(items) => more := SecretsOfItems(v, known);
      case _ => more := known;
    }

    method SecretsOfFields(v: Value, known: Known) returns (more: Known)
      requires v.Model?
      ensures forall t :: t in more <==> t in known || exists s :: Finds(v, s) && t == Token(hash, s)
      ensures forall t ::
              t in more ==> (t in known && more[t] == known[t]) || (Finds(v, more[t]) && t == Token(hash, more[t]))
      decreases v, 0
    {
      more := known;
      var todo := v.fields.Keys;
      while todo != {}
        invariant todo <= v.fields.Keys
        invariant forall t ::
                  t in more <==>
                    t in known || exists k, s ::
                      k in v.fields && k !in todo && Finds(v.fields[k], s) && t == Token(hash, s)
        invariant forall t ::
                  t in more ==> (t in known && more[t] == known[t]) || (Finds(v, more[t]) && t == Token(hash, more[t]))
        decreases todo
      {
        var k :| k in todo;
        more := Secrets(v.fields[k], more);
        todo := todo - {k};
      }
    }

    method SecretsOfItems(v: Value, known: Known) returns (more: Known)
      requires v.Items?
      ensures forall t :: t in more <==> t in known || exists s :: Finds(v, s) && t == Token(hash, s)
      ensures forall t ::
              t in more ==> (t in known && more[t] == known[t]) || (Finds(v, more[t]) && t == Token(hash, more[t]))
      decreases v, 0
    {
      more := known;
      for i := 0 to |v.items|
        invariant forall t ::
                  t in more <==> t in known || exists j, s :: 0 <= j < i && Finds(v.items[j], s) && t == Token(hash, s)
        invariant forall t ::
                  t in more ==> (t in known && more[t] == known[t]) || (Finds(v, more[t]) && t == Token(hash, more[t]))
      {
        more := Secrets(v.items[i], more);
      }
    }

    /** Replaces the tokens of a part of the document that sits at loc. */
    method Walk(known: Known, node: Doc, loc: Location) returns (r: Unmasking)
      ensures r.Unmasked? <==> Clean(known, node)
      ensures r.Unmasked? ==> r.doc == PutSecrets(known, node)
      ensures r.UnknownSecret? ==> loc <= r.loc && UnknownAt(known, node, r.loc[|loc|..])
      decreases node, 1
    {
      match node
      case Obj(fields) => r := WalkFields(known, node, loc);
      case List(items) => r := WalkItems(known, node, loc);
      case Text(s) =>
        if !IsToken(s) {
          return Unmasked(node);
        }
        if s !in known {
          return UnknownSecret(loc);
        }
        return Unmasked(Text(known[s]));
      case Other(_) => return Unmasked(node);
    }

    method WalkFields(known: Known, node: Doc, loc: Location) returns (r: Unmasking)
      requires node.Obj?
      ensures r.Unmasked? <==> Clean(known, node)
      ensures r.Unmasked? ==> r.doc == PutSecrets(known, node)
      ensures r.UnknownSecret? ==> loc <= r.loc && UnknownAt(known, node, r.loc[|loc|..])
      decreases node, 0
    {
      var done: map<string, Doc>, todo := map[], node.fields.Keys;
      while todo != {}
        invariant todo <= node.fields.Keys && done.Keys == node.fields.Keys - todo
        invariant forall k :: k in done ==> Clean(known, node.fields[k]) && done[k] == PutSecrets(known, node.fields[k])
        decreases todo
      {
        var k :| k in todo;
        r := Walk(known, node.fields[k], loc + [Name(k)]);
        if r.UnknownSecret? {
          Deeper(known, node, loc, Name(k), r.loc);
          return;
        }
        done := done[k := r.doc];
        todo := todo - {k};
      }
      return Unmasked(Obj(done));
    }

    method WalkItems(known: Known, node: Doc, loc: Location) returns (r: Unmasking)
      requires node.List?
      ensures r.Unmasked? <==> Clean(known, node)
      ensures r.Unmasked? ==> r.doc == PutSecrets(known, node)
      ensures r.UnknownSecret? ==> loc <= r.loc && UnknownAt(known, node, r.loc[|loc|..])
      decreases node, 0
    {
      var done: seq<Doc> := [];
      for i := 0 to |node.items|
        invariant |done| == i
        invariant forall j :: 0 <= j < i ==> Clean(known, node.items[j]) && done[j] == PutSecrets(known, node.items[j])
      {
        r := Walk(known, node.items[i], loc + [Index(i)]);
        if r.UnknownSecret? {
          Deeper(known, node, loc, Index(i), r.loc);
          return;
        }
        done := done + [r.doc];
      }
      return Unmasked(List(done));
    }

    /** Replaces every token of the document by a secret of the current value that it stands for. It fails exactly if
        some token stands for none, and then names the place of such a token. */
    method Unmask(document: Doc, current: Value) returns (r: Unmasking)
      ensures r.Unmasked? <==> forall loc :: !StrangeAt(hash, current, document, loc)
      ensures r.Unmasked? ==> Restores(hash, current, document, r.doc)
      ensures r.UnknownSecret? ==> StrangeAt(hash, current, document, r.loc)
    {
      var known := Secrets(current, map[]);
      r := Walk(known, document, []);
      if r.Unmasked? {
        CleanRestores(hash, current, known, document);
        forall loc ensures !StrangeAt(hash, current, document, loc) {
          if StrangeAt(hash, current, document, loc) {
            UnknownMeansUnclean(known, document, loc);
          }
        }
      } else {
        assert r.loc[0..] == r.loc;
        assert StrangeAt(hash, current, document, r.loc);
      }
    }
  }

  lemma Deeper(known: Known, node: Doc, loc: Location, key: Key, full: Location)
    requires loc + [key] <= full
    requires At(node, [key]).Some? && UnknownAt(known, At(node, [key]).value, full[|loc + [key]|..])
    ensures loc <= full && UnknownAt(known, node, full[|loc|..])
  {
    var rest := full[|loc|..];
    assert full[|loc|] == key;
    assert rest == [key] + full[|loc| + 1..] && rest[1..] == full[|loc + [key]|..];
    assert [key][1..] == [];
  }

  // ---------------------------------------------------------------- what unmasking promises

  /** The token stands for a secret of the value. */
  ghost predicate Recognised(hash: Hash, current: Value, t: string) {
    exists s :: Finds(current, s) && t == Token(hash, s)
  }

  ghost predicate StrangeAt(hash: Hash, current: Value, d: Doc, loc: Location) {
    var found := At(d, loc);
    found.Some? && found.value.Text? && IsToken(found.value.s) && !Recognised(hash, current, found.value.s)
  }

  /** e is d with every token replaced by a secret it stands for. */
  ghost predicate Restores(hash: Hash, current: Value, d: Doc, e: Doc) {
    match d
    case Obj(fields) => e.Obj? && e.fields.Keys == fields.Keys
      && forall k :: k in fields ==> Restores(hash, current, fields[k], e.fields[k])
    case List(items) => e.List? && |e.items| == |items|
      && forall i :: 0 <= i < |items| ==> Restores(hash, current, items[i], e.items[i])
    case Text(t) => if IsToken(t) then e.Text? && Finds(current, e.s) && t == Token(hash, e.s) else e == d
    case Other(_) => e == d
  }

  lemma {:induction false} CleanRestores(hash: Hash, current: Value, known: Known, d: Doc)
    requires Clean(known, d)
    requires forall t :: t in known ==> Finds(current, known[t]) && t == Token(hash, known[t])
    ensures Restores(hash, current, d, PutSecrets(known, d))
  {
    match d
    case Obj(fields) =>
      forall k | k in fields ensures Restores(hash, current, fields[k], PutSecrets(known, fields[k])) {
        CleanRestores(hash, current, known, fields[k]);
      }
    case List(items) =>
      forall i | 0 <= i < |items| ensures Restores(hash, current, items[i], PutSecrets(known, items[i])) {
        CleanRestores(hash, current, known, items[i]);
      }
    case _ =>
  }

  // ---------------------------------------------------------------- the round trip

  /** Different secrets of the two values have different tokens. */
  ghost predicate NoCollision(hash: Hash, v: Value, current: Value) {
    forall s, t :: Holds(v, s) && Finds(current, t) && Token(hash, s) == Token(hash, t) ==> s == t
  }

  /** Unmasking what was masked gives back every secret, even if the configuration has changed in between. */
  lemma {:induction false} MaskedRestores(hash: Hash, v: Value, current: Value, e: Doc)
    requires Plain(v) && NoCollision(hash, v, current) && Restores(hash, current, Mask(hash, v), e)
    ensures e == Reveal(v)
  {
    match v
    case Model(fields) =>
      forall k | k in fields ensures e.fields[k] == Reveal(fields[k]) {
        MaskedRestores(hash, fields[k], current, e.fields[k]);
      }
    case Dict(entries) =>
      forall k | k in entries ensures e.fields[k] == Reveal(entries[k]) {
        MaskedRestores(hash, entries[k], current, e.fields[k]);
      }
    case Items(items) =>
      forall i | 0 <= i < |items| ensures e.items[i] == Reveal(items[i]) {
        MaskedRestores(hash, items[i], current, e.items[i]);
      }
    case _ =>
  }

  /** Items of a masked list can be reordered, dropped and repeated at will: unmasking does the same to the
      originals. */
  lemma RearrangedItems(hash: Hash, items: seq<Value>, current: Value, order: seq<nat>, e: Doc)
    requires forall i :: 0 <= i < |order| ==> order[i] < |items|
    requires Plain(Items(items)) && NoCollision(hash, Items(items), current)
    requires Restores(hash, current, List(seq(|order|, i requires 0 <= i < |order| => Mask(hash, items[order[i]]))), e)
    ensures e == List(seq(|order|, i requires 0 <= i < |order| => Reveal(items[order[i]])))
  {
    forall i | 0 <= i < |order| ensures e.items[i] == Reveal(items[order[i]]) {
      assert forall s :: Holds(items[order[i]], s) ==> Holds(Items(items), s);
      MaskedRestores(hash, items[order[i]], current, e.items[i]);
    }
  }

  /** A token sits in a masked value exactly for every secret the value holds. */
  lemma {:induction false} TokensAreSecrets(hash: Hash, v: Value, loc: Location)
    requires Plain(v) && At(Mask(hash, v), loc).Some?
    requires At(Mask(hash, v), loc).value.Text? && IsToken(At(Mask(hash, v), loc).value.s)
    ensures exists s :: Holds(v, s) && At(Mask(hash, v), loc) == Some(Text(Token(hash, s)))
    decreases |loc|
  {
    if loc != [] {
      match (v, loc[0])
      case (Model(fields), Name(k)) => TokensAreSecrets(hash, fields[k], loc[1..]);
      case (Dict(entries), Name(k)) => TokensAreSecrets(hash, entries[k], loc[1..]);
      case (Items(items), Index(i)) => TokensAreSecrets(hash, items[i], loc[1..]);
    } else {
      assert v.Secret?;
      assert Holds(v, v.secret);
    }
  }

  lemma {:induction false} SecretsHaveTokens(hash: Hash, v: Value, s: string) returns (loc: Location)
    requires Holds(v, s)
    ensures At(Mask(hash, v), loc) == Some(Text(Token(hash, s)))
    decreases v
  {
    match v
    case Secret(_) => loc := [];
    case Model(fields) =>
      var k :| k in fields && Holds(fields[k], s);
      var rest := SecretsHaveTokens(hash, fields[k], s);
      loc := [Name(k)] + rest;
      assert loc[1..] == rest;
    case Dict(entries) =>
      var k :| k in entries && Holds(entries[k], s);
      var rest := SecretsHaveTokens(hash, entries[k], s);
      loc := [Name(k)] + rest;
      assert loc[1..] == rest;
    case Items(items) =>
      var i :| 0 <= i < |items| && Holds(items[i], s);
      var rest := SecretsHaveTokens(hash, items[i], s);
      loc := [Index(i)] + rest;
      assert loc[1..] == rest;
  }

  /** A masked value can be unmasked exactly if every secret it holds is found: outside dictionaries, or in one as well
      as elsewhere. */
  lemma MaskedIsUnmaskable(hash: Hash, v: Value, current: Value)
    requires Plain(v)
    ensures (forall loc :: !StrangeAt(hash, current, Mask(hash, v), loc)) <==>
            forall s :: Holds(v, s) ==> Recognised(hash, current, Token(hash, s))
  {
    if s :| Holds(v, s) && !Recognised(hash, current, Token(hash, s)) {
      var loc := SecretsHaveTokens(hash, v, s);
      assert StrangeAt(hash, current, Mask(hash, v), loc);
    }
    if loc :| StrangeAt(hash, current, Mask(hash, v), loc) {
      TokensAreSecrets(hash, v, loc);
    }
  }

  /** The case that fails: a secret kept in a dictionary is masked but never found again. */
  lemma DictionarySecretIsLost(hash: Hash, s: string)
    ensures var v := Model(map["headers" := Dict(map["X-Api-Key" := Secret(s)])]);
            Plain(v) && exists loc :: StrangeAt(hash, v, Mask(hash, v), loc)
  {
    var v := Model(map["headers" := Dict(map["X-Api-Key" := Secret(s)])]);
    assert Holds(v, s) by {
      assert Holds(Dict(map["X-Api-Key" := Secret(s)]), s) by { assert "X-Api-Key" in map["X-Api-Key" := Secret(s)]; }
      assert "headers" in v.fields;
    }
    forall t ensures !Finds(v, t) {
      assert forall k :: k in v.fields ==> !Finds(v.fields[k], t);
    }
    MaskedIsUnmaskable(hash, v, v);
  }
}
