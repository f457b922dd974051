/** A virtual store that keeps a registry of its customers, in the order in
    which they were added. Its one mutator, `AdicionarCliente`, only appends:
    it keeps every earlier customer in place and never rejects the new one. */
module Loja {

  /** A customer. Only its constructor arguments (a name and a number) are
      known; the model makes no claim about what they mean. */
  datatype Cliente = Cliente(nome: string, codigo: int)

  /** The list after `List.add(c)`: `c` appended at the end. */
  function Appended(s: seq<Cliente>, c: Cliente): (r: seq<Cliente>)
    ensures |r| == |s| + 1
    ensures r[|s|] == c
    ensures r[..|s|] == s
    ensures multiset(r) == multiset(s) + multiset{c}
  {
    s + [c]
  }

  /** The customer list of a fresh store after `adicionarCliente` has been
      called once for each element of `adds`, in order. */
  function Historico(adds: seq<Cliente>): (r: seq<Cliente>)
    ensures |r| == |adds|
  {
    if adds == [] then []
    else Appended(Historico(adds[..|adds| - 1]), adds[|adds| - 1])
  }

  /** After n adds on a fresh store the list is exactly those n customers,
      in insertion order. */
  lemma {:induction false} HistoricoEmOrdem(adds: seq<Cliente>)
    ensures Historico(adds) == adds
  {
    if adds != [] {
      var n := |adds| - 1;
      HistoricoEmOrdem(adds[..n]);
      assert adds[..n] + [adds[n]] == adds;
    }
  }

  /** One more add extends the history by exactly that customer: every earlier
      customer stays where it was. */
  lemma HistoricoExtends(adds: seq<Cliente>, c: Cliente)
    ensures Historico(adds + [c]) == Historico(adds) + [c]
  {
  }

  /** Adding never rejects a customer: adding the same one twice keeps
      two entries for it. */
  lemma AppendedKeepsDuplicates(s: seq<Cliente>, c: Cliente)
    ensures multiset(Appended(Appended(s, c), c))[c] == multiset(s)[c] + 2
    ensures Appended(Appended(s, c), c) == s + [c, c]
  {
  }

  class LojaVirtual {
    /** The registered customers, in insertion order. */
    var clientes: seq<Cliente>

    /** A new store starts with no customers. */
    constructor ()
      ensures clientes == []
    {
      clientes := [];
    }

    /** Registers `cliente` at the end of the list. */
    method AdicionarCliente(cliente: Cliente)
      modifies this
      ensures clientes == Appended(old(clientes), cliente)
    {
      clientes := clientes + [cliente];
    }

    /** The current customer list; the store is not changed. */
    method GetClientes() returns (r: seq<Cliente>)
      ensures r == clientes
    {
      r := clientes;
    }
  }

  /** A fresh store after `adicionarCliente` has been called once for each
      element of `adds`, in order: its list is exactly `adds`. */
  method AdicionarEmSequencia(adds: seq<Cliente>) returns (loja: LojaVirtual)
    ensures loja.clientes == Historico(adds) == adds
  {
    loja := new LojaVirtual();
    for i := 0 to |adds|
      invariant loja.clientes == adds[..i]
    {
      loja.AdicionarCliente(adds[i]);
      assert adds[..i + 1] == adds[..i] + [adds[i]];
    }
    assert adds[..|adds|] == adds;
    HistoricoEmOrdem(adds);
  }

  /** The store's unit test: one customer added to a fresh store gives a list
      of size 1, and that customer is the one in it. */
  method TestAdicionarCliente() returns (size: nat)
    ensures size == 1
  {
    var loja := new LojaVirtual();
    var cliente := Cliente("Carlos", 101);
    loja.AdicionarCliente(cliente);
    var cs := loja.GetClientes();
    assert cs == [cliente];
    size := |cs|;
  }
}
