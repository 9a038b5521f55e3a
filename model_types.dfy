/** The audit model types and the PHP model class each one is reported under. */
module ModelTypes {
  import opened Text

  const Debtors := "debtors"
  const Debts := "debts"
  const Phones := "phones"
  const Addresses := "addresses"
  const Users := "users"
  const Agreements := "agreements"
  const ContactPersons := "contact_persons"
  const Payments := "payments"
  const Actions := "actions"
  const UserPlans := "user_plans"
  const Enforcements := "enforcement_proceedings"
  const ExecDocs := "executive_documents"

  /** The namespace every PHP model class lives in. */
  const ClassPrefix := "App\\Infrastructure\\Persistence\\Models\\"

  /** The twelve known model types. */
  const Known: seq<string> := [Debtors, Debts, Phones, Addresses, Users, Agreements,
                               ContactPersons, Payments, Actions, UserPlans, Enforcements, ExecDocs]

  /** The class name, without the namespace, of each known model type. */
  const ClassName: map<string, string> := map[
    Debtors := "Debtor",
    Debts := "Debt",
    Phones := "Phone",
    Addresses := "Address",
    Users := "User",
    Agreements := "Agreement",
    ContactPersons := "ContactPerson",
    Payments := "Payment",
    Actions := "Action",
    UserPlans := "UserPlan",
    Enforcements := "EnforcementProceeding",
    ExecDocs := "ExecutiveDocument"]

  /** `PHPModelMap`: each known model type to its fully qualified PHP class. */
  const PHPModelMap: map<string, string> := map t | t in ClassName :: ClassPrefix + ClassName[t]

  /** The PHP class for a table name, the Debtor class for any name it does not know. */
  function PHPModelByTable(table: string): (r: string)
    ensures table in PHPModelMap ==> r == PHPModelMap[table]
    ensures table !in PHPModelMap ==> r == ClassPrefix + "Debtor"
    ensures HasPrefix(r, ClassPrefix)
  {
    if table in PHPModelMap then PHPModelMap[table] else PHPModelMap[Debtors]
  }

  /** The map is keyed by exactly the twelve known types. */
  lemma KnownKeys()
    ensures PHPModelMap.Keys == set t | t in Known
    ensures |Known| == 12
  {
  }

  /** No two model types share a PHP class. */
  lemma ClassesDistinct(a: string, b: string)
    requires a in PHPModelMap && b in PHPModelMap && a != b
    ensures PHPModelMap[a] != PHPModelMap[b]
  {
    var x, y := PHPModelMap[a], PHPModelMap[b];
    assert x[|ClassPrefix|..] == ClassName[a];
    assert y[|ClassPrefix|..] == ClassName[b];
  }

  /** The class a redistributed membership is tagged with. */
  lemma UsersClass()
    ensures PHPModelByTable(Users) == "App\\Infrastructure\\Persistence\\Models\\User"
  {
  }
}
