/**
 * The pieces of SQLite's query semantics the two stores rely on: `WHERE` as a filter in
 * table order, `ORDER BY` as a stable sort on an integer key, `LIMIT` (where a negative
 * count means no limit) and `LIKE` with `%` and `_`, which folds ASCII letters only.
 */
module Sql {
  import opened Wrappers
  import opened Text

  /** `WHERE p`: the rows that satisfy `p`, in table order. */
  function Filtrar<T>(s: seq<T>, p: T -> bool): (r: seq<T>)
    decreases |s|
    ensures |r| <= |s|
    ensures forall i :: 0 <= i < |r| ==> r[i] in s && p(r[i])
    ensures forall i :: 0 <= i < |s| && p(s[i]) ==> s[i] in r
  {
    if s == [] then []
    else
      assert s == [s[0]] + s[1..];
      (if p(s[0]) then [s[0]] else []) + Filtrar(s[1..], p)
  }

  /** `WHERE` never duplicates a row: the result is a sub-multiset of the table. */
  lemma {:induction false} FiltrarSubmultiset<T>(s: seq<T>, p: T -> bool)
    decreases |s|
    ensures multiset(Filtrar(s, p)) <= multiset(s)
  {
    if s != [] {
      FiltrarSubmultiset(s[1..], p);
      assert s == [s[0]] + s[1..];
    }
  }

  /** A row of the table that satisfies `p` is kept. */
  lemma FiltrarMembro<T>(s: seq<T>, p: T -> bool, x: T)
    requires x in s && p(x)
    ensures x in Filtrar(s, p)
  {
    var i :| 0 <= i < |s| && s[i] == x;
  }

  /** Every row of `s` satisfies `p`, so filtering keeps the whole table. */
  lemma {:induction false} FiltrarTudo<T>(s: seq<T>, p: T -> bool)
    requires forall i :: 0 <= i < |s| ==> p(s[i])
    ensures Filtrar(s, p) == s
  {
    if s != [] {
      FiltrarTudo(s[1..], p);
      assert [s[0]] + s[1..] == s;
    }
  }

  /** No row of `s` satisfies `p`. */
  lemma FiltrarNada<T>(s: seq<T>, p: T -> bool)
    requires forall i :: 0 <= i < |s| ==> !p(s[i])
    ensures Filtrar(s, p) == []
  {
  }

  /** Two conditions that agree on every row of the table select the same rows. */
  lemma {:induction false} FiltrarMesmo<T>(s: seq<T>, p: T -> bool, q: T -> bool)
    requires forall i :: 0 <= i < |s| ==> p(s[i]) == q(s[i])
    decreases |s|
    ensures Filtrar(s, p) == Filtrar(s, q)
  {
    if s != [] {
      FiltrarMesmo(s[1..], p, q);
    }
  }

  /** Filtering keeps the relative order of rows: a table strictly increasing in `key` stays so. */
  lemma {:induction false} FiltrarCrescente<T>(s: seq<T>, p: T -> bool, key: T -> int)
    requires forall i, j :: 0 <= i < j < |s| ==> key(s[i]) < key(s[j])
    decreases |s|
    ensures forall i, j :: 0 <= i < j < |Filtrar(s, p)| ==> key(Filtrar(s, p)[i]) < key(Filtrar(s, p)[j])
  {
    if s != [] {
      FiltrarCrescente(s[1..], p, key);
      var t := Filtrar(s[1..], p);
      forall k | 0 <= k < |t| ensures key(s[0]) < key(t[k]) {
        var m :| 0 <= m < |s[1..]| && s[1..][m] == t[k];
        assert s[m + 1] == t[k];
      }
    }
  }

  /** Over a table holding every value in increasing `key` order, `WHERE p` yields exactly the values `p` accepts, still increasing. */
  lemma FiltrarCatalogo<T>(s: seq<T>, p: T -> bool, key: T -> int)
    requires forall x: T :: x in s
    requires forall i, j :: 0 <= i < j < |s| ==> key(s[i]) < key(s[j])
    ensures forall x :: x in Filtrar(s, p) <==> p(x)
    ensures forall i, j :: 0 <= i < j < |Filtrar(s, p)| ==> key(Filtrar(s, p)[i]) < key(Filtrar(s, p)[j])
  {
    FiltrarCrescente(s, p, key);
    forall x | p(x) ensures x in Filtrar(s, p) {
      FiltrarMembro(s, p, x);
    }
  }

  predicate Ordenada<T>(s: seq<T>, key: T -> int) {
    forall i, j :: 0 <= i < j < |s| ==> key(s[i]) <= key(s[j])
  }

  /** Insertion after every row whose key is not larger: rows with equal keys keep their order. */
  function Inserir<T>(x: T, s: seq<T>, key: T -> int): (r: seq<T>)
    requires Ordenada(s, key)
    decreases |s|
    ensures Ordenada(r, key)
    ensures multiset(r) == multiset(s) + multiset{x}
    ensures |r| == |s| + 1
  {
    if s == [] then [x]
    else if key(x) < key(s[0]) then [x] + s
    else
      var t := Inserir(x, s[1..], key);
      InserirDepois(x, s, t, key);
      assert s == [s[0]] + s[1..];
      [s[0]] + t
  }

  /** The head of a sorted table stays in front of the rest with a larger-or-equal row inserted. */
  lemma InserirDepois<T>(x: T, s: seq<T>, t: seq<T>, key: T -> int)
    requires s != [] && Ordenada(s, key) && key(s[0]) <= key(x)
    requires Ordenada(t, key) && multiset(t) == multiset(s[1..]) + multiset{x}
    ensures Ordenada([s[0]] + t, key)
  {
    forall i | 0 <= i < |t| ensures key(s[0]) <= key(t[i]) {
      assert t[i] in multiset(t);
      if t[i] != x {
        assert t[i] in multiset(s[1..]);
        var j :| 0 <= j < |s| - 1 && s[1..][j] == t[i];
        assert s[j + 1] == t[i];
      }
    }
    var r := [s[0]] + t;
    forall i, j | 0 <= i < j < |r| ensures key(r[i]) <= key(r[j]) {
      assert r[j] == t[j - 1];
      if i > 0 {
        assert r[i] == t[i - 1];
      }
    }
  }

  /**
   * `ORDER BY key ASC`. SQLite does not fix the order of rows with equal keys; the model
   * keeps them in table order.
   */
  function OrdenarPor<T>(s: seq<T>, key: T -> int): (r: seq<T>)
    decreases |s|
    ensures Ordenada(r, key)
    ensures multiset(r) == multiset(s)
    ensures |r| == |s|
  {
    if s == [] then []
    else
      var init := s[..|s| - 1];
      assert s == init + [s[|s| - 1]];
      Inserir(s[|s| - 1], OrdenarPor(init, key), key)
  }

  /** `LIMIT n`: the first `n` rows, or all of them when `n` is negative. */
  function Limitar<T>(s: seq<T>, n: int): (r: seq<T>)
    ensures r <= s
    ensures |r| == if 0 <= n < |s| then n else |s|
  {
    if 0 <= n < |s| then s[..n] else s
  }

  /** The rows a `LIMIT` keeps come first in the order: none of the dropped rows precedes them. */
  lemma LimiteTopo<T>(s: seq<T>, key: T -> int, n: int, x: T, y: T)
    requires Ordenada(s, key)
    requires x in Limitar(s, n) && y in s[|Limitar(s, n)|..]
    ensures key(x) <= key(y)
  {
    var r := Limitar(s, n);
    var i :| 0 <= i < |r| && r[i] == x;
    var j :| 0 <= j < |s[|r|..]| && s[|r|..][j] == y;
    assert s[i] == x && s[|r| + j] == y;
  }

  /** A sorted, filtered and limited table holds only rows of the table that pass the filter. */
  lemma ConsultaSubconjunto<T>(s: seq<T>, p: T -> bool, key: T -> int, n: int, x: T)
    requires x in Limitar(OrdenarPor(Filtrar(s, p), key), n)
    ensures x in s && p(x)
  {
    var o := OrdenarPor(Filtrar(s, p), key);
    assert x in o;
    assert x in multiset(o);
  }

  /** When no more rows pass the filter than the limit allows, every passing row is returned. */
  lemma ConsultaCompleta<T>(s: seq<T>, p: T -> bool, key: T -> int, n: int, x: T)
    requires n < 0 || |Filtrar(s, p)| <= n
    requires x in s && p(x)
    ensures x in Limitar(OrdenarPor(Filtrar(s, p), key), n)
  {
    var f := Filtrar(s, p);
    assert x in multiset(f);
  }

  /**
   * `SELECT * ... WHERE p ORDER BY key LIMIT n`: rows of the table that pass the filter, in
   * key order, at most `n` of them; when no more than `n` rows pass, all of them are returned.
   */
  function Consulta<T>(s: seq<T>, p: T -> bool, key: T -> int, n: int): (r: seq<T>)
    ensures forall i :: 0 <= i < |r| ==> r[i] in s && p(r[i])
    ensures multiset(r) <= multiset(s)
    ensures Ordenada(r, key)
    ensures 0 <= n ==> |r| <= n
    ensures n < 0 || |Filtrar(s, p)| <= n ==> multiset(r) == multiset(Filtrar(s, p))
    ensures 0 <= n < |Filtrar(s, p)| ==> |r| == n
  {
    var o := OrdenarPor(Filtrar(s, p), key);
    var r := Limitar(o, n);
    assert |o| == |Filtrar(s, p)|;
    PrefixoSubmultiset(r, o);
    FiltrarSubmultiset(s, p);
    ConsultaLinhas(s, p, key, n);
    r
  }

  /** Every row a sorted, filtered and limited table holds is a passing row of the table. */
  lemma ConsultaLinhas<T>(s: seq<T>, p: T -> bool, key: T -> int, n: int)
    ensures forall x :: x in Limitar(OrdenarPor(Filtrar(s, p), key), n) ==> x in s && p(x)
  {
    forall x | x in Limitar(OrdenarPor(Filtrar(s, p), key), n) ensures x in s && p(x) {
      ConsultaSubconjunto(s, p, key, n, x);
    }
  }

  /**
   * The limit keeps the first rows by key: a row that passes the filter but is not returned
   * sorts no earlier than any returned row.
   */
  lemma ConsultaTopo<T>(s: seq<T>, p: T -> bool, key: T -> int, n: int, x: T, y: T)
    requires x in Consulta(s, p, key, n)
    requires y in s && p(y) && y !in Consulta(s, p, key, n)
    ensures key(x) <= key(y)
  {
    var f := Filtrar(s, p);
    var o := OrdenarPor(f, key);
    assert y in o by {
      assert y in multiset(f);
    }
    LimiteTopoFora(o, key, n, x, y);
  }

  /** A row of a sorted table that the limit drops sorts no earlier than any row it keeps. */
  lemma LimiteTopoFora<T>(o: seq<T>, key: T -> int, n: int, x: T, y: T)
    requires Ordenada(o, key)
    requires x in Limitar(o, n) && y in o && y !in Limitar(o, n)
    ensures key(x) <= key(y)
  {
    var r := Limitar(o, n);
    var j :| 0 <= j < |o| && o[j] == y;
    assert j >= |r| by {
      assert forall i :: 0 <= i < |r| ==> r[i] == o[i];
    }
    assert o[|r|..][j - |r|] == y;
    LimiteTopo(o, key, n, x, y);
  }

  /** Without a limit, a query returns exactly the rows that pass its filter. */
  lemma ConsultaSemLimite<T>(s: seq<T>, p: T -> bool, key: T -> int)
    ensures forall x :: x in Consulta(s, p, key, -1) <==> x in s && p(x)
  {
    var r := Consulta(s, p, key, -1);
    forall x | x in r ensures x in s && p(x) {
      var k :| 0 <= k < |r| && r[k] == x;
    }
    forall x | x in s && p(x) ensures x in r {
      ConsultaCompleta(s, p, key, -1, x);
    }
  }

  /** A query depends on its `WHERE` only through the rows the condition selects. */
  lemma ConsultaMesmoFiltro<T>(s: seq<T>, p: T -> bool, q: T -> bool, key: T -> int, n: int)
    requires forall i :: 0 <= i < |s| ==> p(s[i]) == q(s[i])
    ensures Consulta(s, p, key, n) == Consulta(s, q, key, n)
  {
    FiltrarMesmo(s, p, q);
  }

  lemma PrefixoSubmultiset<T>(r: seq<T>, s: seq<T>)
    requires r <= s
    ensures multiset(r) <= multiset(s)
  {
    assert s == r + s[|r|..];
  }

  /** No row occurs twice. */
  ghost predicate SemRepeticao<T>(s: seq<T>) {
    forall i, j :: 0 <= i < j < |s| ==> s[i] != s[j]
  }

  lemma {:induction false} SemRepeticaoContagem<T>(s: seq<T>, x: T)
    requires SemRepeticao(s)
    decreases |s|
    ensures multiset(s)[x] <= 1
  {
    if s != [] {
      assert s == [s[0]] + s[1..];
      SemRepeticaoContagem(s[1..], x);
      if s[0] == x {
        assert x !in s[1..];
      }
    }
  }

  lemma RepeticaoContagem<T>(s: seq<T>, i: nat, j: nat)
    requires i < j < |s| && s[i] == s[j]
    ensures multiset(s)[s[i]] >= 2
  {
    assert s == s[..j] + [s[j]] + s[j + 1..];
    assert s[i] in s[..j];
  }

  /** Part of a table without repeated rows has no repeated rows either. */
  lemma SubmultisetSemRepeticao<T>(r: seq<T>, s: seq<T>)
    requires multiset(r) <= multiset(s) && SemRepeticao(s)
    ensures SemRepeticao(r)
  {
    forall i, j | 0 <= i < j < |r| ensures r[i] != r[j] {
      if r[i] == r[j] {
        RepeticaoContagem(r, i, j);
        SemRepeticaoContagem(s, r[i]);
        assert false;
      }
    }
  }

  /** The first index at or after `from` whose row satisfies `p`: a scan in table order. */
  function Primeiro<T>(s: seq<T>, p: T -> bool, from: nat := 0): (r: Option<nat>)
    requires from <= |s|
    decreases |s| - from
    ensures r.Some? ==> from <= r.value < |s| && p(s[r.value])
    ensures forall k :: from <= k < |s| && (r.None? || k < r.value) ==> !p(s[k])
  {
    if from == |s| then None
    else if p(s[from]) then Some(from)
    else Primeiro(s, p, from + 1)
  }

  /**
   * `for (const row of rows) result[row.key] = row.total`: the rows of a `GROUP BY` result
   * gathered into a record. Each row's total is `total(key)`, so every key read back gives it.
   */
  method Agrupar<K>(grupos: seq<(K, nat)>, ghost total: K -> nat) returns (m: map<K, nat>)
    requires forall k :: 0 <= k < |grupos| ==> grupos[k].1 == total(grupos[k].0)
    ensures forall key :: key in m <==> exists k :: 0 <= k < |grupos| && grupos[k].0 == key
    ensures forall key :: key in m ==> m[key] == total(key)
  {
    m := map[];
    for i := 0 to |grupos|
      invariant forall key :: key in m <==> exists k :: 0 <= k < i && grupos[k].0 == key
      invariant forall key :: key in m ==> m[key] == total(key)
    {
      m := m[grupos[i].0 := grupos[i].1];
    }
  }

  /** How many rows satisfy `p`: `COUNT(*)` under a `WHERE`. */
  function Contar<T>(s: seq<T>, p: T -> bool): (n: nat)
    decreases |s|
    ensures n == |Filtrar(s, p)|
  {
    if s == [] then 0 else (if p(s[0]) then 1 else 0) + Contar(s[1..], p)
  }

  /** LIKE's comparison of two characters: equal once ASCII letters are folded. */
  predicate IgualSemCaixa(a: char, b: char) {
    LowerAsciiChar(a) == LowerAsciiChar(b)
  }

  /** `t LIKE p` with no ESCAPE clause: `%` matches any run, `_` any one character. */
  predicate Like(t: string, p: string)
    decreases |t| + |p|
  {
    if p == [] then t == []
    else if p[0] == '%' then Like(t, p[1..]) || (t != [] && Like(t[1..], p))
    else t != [] && (p[0] == '_' || IgualSemCaixa(t[0], p[0])) && Like(t[1..], p[1..])
  }

  /** A pattern with no wildcard. */
  predicate SemCuringa(w: string) {
    forall i :: 0 <= i < |w| ==> w[i] != '%' && w[i] != '_'
  }

  lemma LowerAsciiSlice(t: string, k: nat)
    requires k <= |t|
    ensures LowerAscii(t)[k..] == LowerAscii(t[k..])
  {
  }

  /** `t LIKE w || '%'` for a wildcard-free `w` holds exactly when `t` starts with `w`, up to case. */
  lemma {:induction false} LikePrefixo(t: string, w: string)
    requires SemCuringa(w)
    decreases |w|
    ensures Like(t, w + "%") <==> StartsWith(LowerAscii(t), LowerAscii(w))
  {
    if w == [] {
      LikeTudo(t);
      assert w + "%" == "%";
    } else {
      assert (w + "%")[0] == w[0];
      assert (w + "%")[1..] == w[1..] + "%";
      assert SemCuringa(w[1..]);
      if t != [] {
        LikePrefixo(t[1..], w[1..]);
        LowerAsciiSlice(t, 1);
        LowerAsciiSlice(w, 1);
        var lt, lw := LowerAscii(t), LowerAscii(w);
        if StartsWith(lt, lw) {
          assert lt[1..][0..|lw| - 1] == lt[1..|lw|];
          assert lw[1..] == lt[1..|lw|];
        }
        if IgualSemCaixa(t[0], w[0]) && StartsWith(lt[1..], lw[1..]) {
          assert lt[0..|lw|] == [lt[0]] + lt[1..][0..|lw| - 1];
          assert lw == [lw[0]] + lw[1..];
        }
      }
    }
  }

  /** `%` matches every string. */
  lemma {:induction false} LikeTudo(t: string)
    decreases |t|
    ensures Like(t, "%")
  {
    assert "%"[1..] == "";
    if t != [] {
      LikeTudo(t[1..]);
    }
  }

  /** A leading `%` lets the rest of the pattern match any suffix. */
  lemma {:induction false} LikeSufixo(t: string, q: string)
    decreases |t|
    ensures Like(t, "%" + q) <==> exists k | 0 <= k <= |t| :: Like(t[k..], q)
  {
    var p := "%" + q;
    assert p[0] == '%' && p[1..] == q;
    assert t[0..] == t;
    if t != [] {
      LikeSufixo(t[1..], q);
      if Like(t[1..], p) {
        var k :| 0 <= k <= |t[1..]| && Like(t[1..][k..], q);
        assert t[1..][k..] == t[k + 1..];
      }
      if k :| 0 <= k <= |t| && Like(t[k..], q) {
        if k > 0 {
          assert t[1..][k - 1..] == t[k..];
        }
      }
    }
  }

  /** `LOWER` on both sides of a `LIKE` changes nothing: `LIKE` already folds ASCII letters. */
  lemma {:induction false} LikeMinusculas(t: string, p: string)
    decreases |t| + |p|
    ensures Like(LowerAscii(t), LowerAscii(p)) <==> Like(t, p)
  {
    var lt, lp := LowerAscii(t), LowerAscii(p);
    if p != [] {
      LowerAsciiSlice(p, 1);
      LikeMinusculas(t, p[1..]);
      if t != [] {
        LowerAsciiSlice(t, 1);
        LikeMinusculas(t[1..], p);
        LikeMinusculas(t[1..], p[1..]);
        assert IgualSemCaixa(lt[0], lp[0]) <==> IgualSemCaixa(t[0], p[0]);
      }
    }
  }

  /**
   * `t LIKE '%' || w || '%'` for a wildcard-free `w` holds exactly when `w` occurs in `t`,
   * up to the case of ASCII letters: the substring search of the catalogue.
   */
  lemma LikeContem(t: string, w: string)
    requires SemCuringa(w)
    ensures Like(t, "%" + w + "%") <==> Contains(LowerAscii(t), LowerAscii(w))
  {
    assert "%" + w + "%" == "%" + (w + "%");
    LikeSufixo(t, w + "%");
    if Like(t, "%" + w + "%") {
      var k :| 0 <= k <= |t| && Like(t[k..], w + "%");
      LikeContemEm(t, w, k);
    }
    if Contains(LowerAscii(t), LowerAscii(w)) {
      var k :| 0 <= k <= |t| && StartsAt(LowerAscii(t), k, LowerAscii(w));
      LikeContemEm(t, w, k);
    }
  }

  /** At one position `k`: the pattern `w%` matches the rest of `t` exactly when `w` occurs there. */
  lemma LikeContemEm(t: string, w: string, k: nat)
    requires SemCuringa(w) && k <= |t|
    ensures Like(t[k..], w + "%") <==> StartsAt(LowerAscii(t), k, LowerAscii(w))
  {
    var lt, lw := LowerAscii(t), LowerAscii(w);
    LikePrefixo(t[k..], w);
    LowerAsciiSlice(t, k);
    if k + |lw| <= |lt| {
      assert lt[k..][0..|lw|] == lt[k..k + |lw|];
    }
  }

  /** `t LIKE w` for a wildcard-free `w` is equality up to the case of ASCII letters. */
  lemma {:induction false} LikeLiteral(t: string, w: string)
    requires SemCuringa(w)
    decreases |w|
    ensures Like(t, w) <==> LowerAscii(t) == LowerAscii(w)
  {
    if w != [] && t != [] {
      assert SemCuringa(w[1..]);
      LikeLiteral(t[1..], w[1..]);
      LowerAsciiSlice(t, 1);
      LowerAsciiSlice(w, 1);
      var lt, lw := LowerAscii(t), LowerAscii(w);
      if lt == lw {
        assert lt[1..] == lw[1..];
      }
      if IgualSemCaixa(t[0], w[0]) && lt[1..] == lw[1..] {
        assert lt == [lt[0]] + lt[1..];
        assert lw == [lw[0]] + lw[1..];
      }
    }
  }

  /** `t LIKE '%' || w` for a wildcard-free `w` holds exactly when `t` ends with `w`, up to case. */
  lemma LikeTermina(t: string, w: string)
    requires SemCuringa(w)
    ensures Like(t, "%" + w) <==> EndsWith(LowerAscii(t), LowerAscii(w))
  {
    LikeSufixo(t, w);
    var lt, lw := LowerAscii(t), LowerAscii(w);
    if Like(t, "%" + w) {
      var k :| 0 <= k <= |t| && Like(t[k..], w);
      LikeLiteral(t[k..], w);
      LowerAsciiSlice(t, k);
      assert |lt| - |lw| == k;
    }
    if EndsWith(lt, lw) {
      var k := |t| - |w|;
      LikeLiteral(t[k..], w);
      LowerAsciiSlice(t, k);
    }
  }
}
