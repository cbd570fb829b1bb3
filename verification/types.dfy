/**
 * The record model of the application (src/lib/types.ts): the two category lists,
 * their concatenation, the icon table and the transaction record.
 */
module Types {
  import opened Wrappers
  import opened Dates
  import Seqs

  /** `type: 'income' | 'expense'`: no other value exists. */
  datatype Kind = Income | Expense

  /**
   * A stored transaction. `comments` is the only optional field. The amount is a
   * JavaScript number without NaN or infinities; the date is the instant the ISO
   * string denotes.
   */
  datatype Transaction = Transaction(
    id: string,
    kind: Kind,
    amount: real,
    date: Stamp,
    category: string,
    description: string,
    comments: Option<string>)

  /** `Omit<Transaction, 'id'>`: what the forms and the import hand to the store. */
  datatype Draft = Draft(
    kind: Kind,
    amount: real,
    date: Stamp,
    category: string,
    description: string,
    comments: Option<string>)

  /** `{ id, ...draft }`. */
  function WithId(id: string, d: Draft): (t: Transaction)
    ensures t.id == id && DraftOf(t) == d
  {
    Transaction(id, d.kind, d.amount, d.date, d.category, d.description, d.comments)
  }

  /** `const { id, ...data } = t`: every field except `id`. */
  function DraftOf(t: Transaction): Draft
  {
    Draft(t.kind, t.amount, t.date, t.category, t.description, t.comments)
  }

  const ExpenseCategories: seq<string> := [
    "Alimentacion",
    "Transporte y/o Gasolina",
    "Compras Casa",
    "Prestamo y Deuda",
    "Compra de Repuestos",
    "Servicios Basicos Luz y Agua",
    "Creditos",
    "Otros Gastos"
  ]

  const IncomeCategories: seq<string> := [
    "Sueldo",
    "Servicio Tecnico",
    "Comision Inmobiliaria",
    "Otros Ingresos"
  ]

  /** `[...expenseCategories, ...incomeCategories]`. */
  const Categories: seq<string> := ExpenseCategories + IncomeCategories

  /** The list of categories that belongs to one kind of transaction. */
  function CategoriesOf(k: Kind): seq<string>
  {
    match k
    case Income => IncomeCategories
    case Expense => ExpenseCategories
  }

  /** The lucide icons the table assigns. */
  datatype Icon = Utensils | Car | ShoppingCart | Landmark | Wrench | Plug | HandCoins | Cog
                | Briefcase | Building | Wallet

  /** `categoryIcons: Record<Category, LucideIcon>`. */
  const CategoryIcons: map<string, Icon> := map[
    "Alimentacion" := Utensils,
    "Transporte y/o Gasolina" := Car,
    "Compras Casa" := ShoppingCart,
    "Prestamo y Deuda" := Landmark,
    "Compra de Repuestos" := Wrench,
    "Servicios Basicos Luz y Agua" := Plug,
    "Creditos" := HandCoins,
    "Otros Gastos" := Cog,
    "Sueldo" := Briefcase,
    "Servicio Tecnico" := Cog,
    "Comision Inmobiliaria" := Building,
    "Otros Ingresos" := Wallet
  ]

  /** Eight expense names and four income names, none repeated. */
  lemma CategoryListsWellFormed()
    ensures |ExpenseCategories| == 8 && Seqs.Distinct(ExpenseCategories)
    ensures |IncomeCategories| == 4 && Seqs.Distinct(IncomeCategories)
  {
  }

  /** No name is both an expense and an income category. */
  lemma CategoryListsDisjoint(c: string)
    ensures !(c in ExpenseCategories && c in IncomeCategories)
  {
  }

  /** A name is a category exactly when it is in one, and only one, of the two lists. */
  lemma InCategoriesIff(c: string)
    ensures c in Categories <==> (c in ExpenseCategories) != (c in IncomeCategories)
  {
    CategoryListsDisjoint(c);
  }

  /** The icon table has an entry for every category and for nothing else. */
  lemma IconsCoverCategories()
    ensures CategoryIcons.Keys == set c | c in Categories
  {
  }
}
