# LojaVirtual — a verified model of the store's customer registry

`LojaVirtual` is a small store object that keeps a list of its customers
(`Cliente`). A new store starts with an empty list. `adicionarCliente`
appends a customer at the end of the list. `getClientes` returns the list.
The model is the class `Loja.LojaVirtual` in `loja.dfy`:

- its field `clientes: seq<Cliente>` stands for the Java `LinkedList`;
- its constructor starts the list empty;
- `AdicionarCliente` changes `this` and appends at the end;
- `GetClientes` reads the list and changes nothing.

The specification functions `Appended` (one `List.add`) and `Historico` (the
list after a series of adds on a fresh store) carry the properties proved
about the store. The JUnit test `TesteCliente.testAdicionarCliente` is the
method `TestAdicionarCliente`.

## Model

| member | source | states |
|---|---|---|
| `Loja.LojaVirtual.constructor` | EngSW/ExercicioAula/ExercicioAula/src/main/java/LojaVirtual.java:5 | a freshly constructed store has an empty customer list |
| `Loja.LojaVirtual.AdicionarCliente` | EngSW/ExercicioAula/ExercicioAula/src/main/java/LojaVirtual.java:7-9 | the new list is the old list with the customer appended at the end; only the store's own field changes |
| `Loja.LojaVirtual.GetClientes` | EngSW/ExercicioAula/ExercicioAula/src/main/java/LojaVirtual.java:11-13 | returns exactly the current customer list and modifies nothing |
| `Loja.Appended` | EngSW/ExercicioAula/ExercicioAula/src/main/java/LojaVirtual.java:8 | one add grows the list by exactly one; the added customer is last; every earlier customer is unchanged and in its original order; the customer is never rejected (its count rises by one) |
| `Loja.Historico` | EngSW/ExercicioAula/ExercicioAula/src/main/java/LojaVirtual.java:5-9 | after n adds on a fresh store the list has exactly n entries |
| `Loja.HistoricoEmOrdem` | EngSW/ExercicioAula/ExercicioAula/src/main/java/LojaVirtual.java:5-9 | after n adds on a fresh store the list is exactly those n customers in insertion order |
| `Loja.HistoricoExtends` | EngSW/ExercicioAula/ExercicioAula/src/main/java/LojaVirtual.java:7-9 | one more add extends the earlier list by that customer and leaves the earlier entries as they were |
| `Loja.AppendedKeepsDuplicates` | EngSW/ExercicioAula/ExercicioAula/src/main/java/LojaVirtual.java:8 | adding the same customer twice keeps two entries for it |
| `Loja.AdicionarEmSequencia` | EngSW/ExercicioAula/ExercicioAula/src/main/java/LojaVirtual.java:5-9 | a fresh store after one `AdicionarCliente` call per customer of `adds`, in order, holds exactly `adds`, which is `Historico(adds)` |
| `Loja.TestAdicionarCliente` | EngSW/ExercicioAula/ExercicioAula/src/main/java/TesteCliente.java:6-11 | one add of `Cliente("Carlos", 101)` to a fresh store gives a list of size 1 |

## Left out

- `Cliente`: its class is not part of this model. It is a datatype built from its constructor arguments (a name and a number), and nothing is claimed about them.
- Java reference aliasing: `getClientes` returns the internal mutable `LinkedList`, so outside code could change the store's list through it. The model returns the list as a value.
- `LinkedList` nodes and performance: only the list's sequence behaviour is modelled.
- JUnit machinery and `assertEquals`: the test becomes a method whose postcondition is the asserted size.
- Null customers: Java's `adicionarCliente(null)` stores a null entry, because `LinkedList` accepts null and counts it in `size()`. The model's `Cliente` has no null value, so that input is not expressible.
- Integer width of `size()`: Java's `List.size()` returns a 32-bit `int`, and `LinkedList` keeps its size in an `int` counter with no overflow guard. The model's list length is an unbounded `nat`, so `Historico` and `TestAdicionarCliente` agree with Java's `size()` only for lists of at most 2^31 - 1 customers.
- Java object identity and `equals` of customers: customers are compared as values.
- The library front end and its REST backend in other parts of the repository are not part of this model. They are HTTP and DOM glue.
