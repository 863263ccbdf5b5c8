/** The validation step for the primary address of an interface declaration: either an
    inet address or an address wildcard, and nothing else beside the one that is set.
    The interface bean and the changeset are seen only through what the step asks of them:
    whether each address field is set, and which keys the cleaned changeset holds. */
module AddressValidation {

  const INET_ADDRESS: string := "inetAddress"
  const ADDRESS_WILDCARD: string := "addressWildcard"

  /** The interface as the step sees it: whether `isSet` holds of each address field. */
  datatype Interface = Interface(inetAddressSet: bool, addressWildcardSet: bool)

  /** The step takes part when an address field is set or the changes touch one. */
  method DoesApplyTo(entity: Interface, clean: set<string>) returns (applies: bool)
    ensures applies <==>
      entity.inetAddressSet || entity.addressWildcardSet || INET_ADDRESS in clean || ADDRESS_WILDCARD in clean
  {
    var hasSetValues := entity.inetAddressSet || entity.addressWildcardSet;
    var relevantChanges := false;
    var keys := clean;
    while keys != {}
      invariant keys <= clean
      invariant relevantChanges ==> INET_ADDRESS in clean || ADDRESS_WILDCARD in clean
      invariant !relevantChanges ==> (INET_ADDRESS in clean ==> INET_ADDRESS in keys)
      invariant !relevantChanges ==> (ADDRESS_WILDCARD in clean ==> ADDRESS_WILDCARD in keys)
      decreases keys
    {
      var key :| key in keys;
      if key == INET_ADDRESS || key == ADDRESS_WILDCARD {
        relevantChanges := true;
        break;
      }
      keys := keys - {key};
    }
    applies := hasSetValues || relevantChanges;
  }

  // ---------------------------------------------------------------------------------
  // The decision tree

  datatype Verdict = Success | Failure

  /** The questions the tree's decisions ask. The two "other values" questions first drop
      the field they are about from the changeset, then ask whether anything is left. */
  datatype Check = InetAddressIsSet | ModifiesBesideInetAddress | AddressWildcardIsSet | ModifiesBesideAddressWildcard

  /** A node of a decision tree: a question with a yes and a no branch, or a terminal with
      its verdict. Nodes carry the numbers and texts the tree was built with. */
  datatype DecisionNode =
    | Decision(id: nat, question: string, check: Check, yes: DecisionNode, no: DecisionNode)
    | Terminal(id: nat, text: string, verdict: Verdict)

  /** The tree of this step: 1 asks for the inet address, 2 and 6 for other changes, 3 for
      the wildcard; 4, 5, 7, 8 and 9 are terminals. */
  function BuildDecisionTree(): DecisionNode {
    Decision(1, "Is Inet address set?", InetAddressIsSet,
      Decision(2, "Attempt to modify other values?", ModifiesBesideInetAddress,
        Terminal(4, "Error: When Inet address is set, no other values are possible.", Failure),
        Terminal(5, "Success: Inet address", Success)),
      Decision(3, "Is address wildcard set?", AddressWildcardIsSet,
        Decision(6, "Attempt to modify other values?", ModifiesBesideAddressWildcard,
          Terminal(8, "Error: When address wildcard is set, no other values are possible.", Failure),
          Terminal(9, "Success: Address Wildcard", Success)),
        Terminal(7, "Failure : Neither Inet address nor wildcard set!", Failure)))
  }

  /** The changeset after a decision has run: the "other values" questions remove a key. */
  function AfterCheck(check: Check, changeset: set<string>): (after: set<string>)
    ensures after <= changeset
  {
    match check
    case ModifiesBesideInetAddress => changeset - {INET_ADDRESS}
    case ModifiesBesideAddressWildcard => changeset - {ADDRESS_WILDCARD}
    case _ => changeset
  }

  /** A decision's answer. */
  function Answer(check: Check, entity: Interface, changeset: set<string>): bool {
    match check
    case InetAddressIsSet => entity.inetAddressSet
    case AddressWildcardIsSet => entity.addressWildcardSet
    case _ => AfterCheck(check, changeset) != {}
  }

  /** The terminal reached from `node` by following the answers, with the changeset shared
      along the way. */
  function Walk(node: DecisionNode, entity: Interface, changeset: set<string>): (nat, Verdict)
    decreases node
  {
    match node
    case Terminal(id, _, verdict) => (id, verdict)
    case Decision(_, _, check, yes, no) =>
      if Answer(check, entity, changeset) then Walk(yes, entity, AfterCheck(check, changeset))
      else Walk(no, entity, AfterCheck(check, changeset))
  }

  /** Walks a tree from its root, letting each decision update the changeset it shares with
      the others. */
  method Evaluate(tree: DecisionNode, entity: Interface, changeset: set<string>) returns (id: nat, verdict: Verdict)
    ensures (id, verdict) == Walk(tree, entity, changeset)
  {
    var node := tree;
    var shared := changeset;
    while node.Decision?
      invariant Walk(node, entity, shared) == Walk(tree, entity, changeset)
      decreases node
    {
      var answer: bool;
      match node.check {
        case InetAddressIsSet =>
          answer := entity.inetAddressSet;
        case AddressWildcardIsSet =>
          answer := entity.addressWildcardSet;
        case ModifiesBesideInetAddress =>
          shared := shared - {INET_ADDRESS};
          answer := shared != {};
        case ModifiesBesideAddressWildcard =>
          shared := shared - {ADDRESS_WILDCARD};
          answer := shared != {};
      }
      node := if answer then node.yes else node.no;
    }
    id, verdict := node.id, node.verdict;
  }

  /** The step's outcome for an interface and its cleaned changeset. */
  function Validate(entity: Interface, changeset: set<string>): (r: (nat, Verdict))
    ensures r.0 in {4, 5, 7, 8, 9}
    ensures r.1 == Success <==> r.0 == 5 || r.0 == 9
    ensures entity.inetAddressSet && changeset - {INET_ADDRESS} != {} ==> r == (4, Failure)
    ensures entity.inetAddressSet && changeset <= {INET_ADDRESS} ==> r == (5, Success)
    ensures !entity.inetAddressSet && !entity.addressWildcardSet ==> r == (7, Failure)
    ensures !entity.inetAddressSet && entity.addressWildcardSet && changeset - {ADDRESS_WILDCARD} != {} ==> r == (8, Failure)
    ensures !entity.inetAddressSet && entity.addressWildcardSet && changeset <= {ADDRESS_WILDCARD} ==> r == (9, Success)
  {
    Walk(BuildDecisionTree(), entity, changeset)
  }

  /** Once the inet address is set, the wildcard is never asked about: a changed
      addressWildcard key counts as another value and fails the step. */
  lemma InetAddressPathIgnoresWildcard(entity: Interface, changeset: set<string>)
    requires entity.inetAddressSet
    ensures Validate(entity, changeset) == Validate(entity.(addressWildcardSet := !entity.addressWildcardSet), changeset)
    ensures ADDRESS_WILDCARD in changeset ==> Validate(entity, changeset).1 == Failure
  {
    assert ADDRESS_WILDCARD in changeset ==> ADDRESS_WILDCARD in changeset - {INET_ADDRESS};
  }

  /** Where the step does not apply, walking its tree would fail at node 7. */
  lemma InapplicableWouldFail(entity: Interface, clean: set<string>)
    requires !entity.inetAddressSet && !entity.addressWildcardSet
    requires INET_ADDRESS !in clean && ADDRESS_WILDCARD !in clean
    ensures Validate(entity, clean) == (7, Failure)
  {
  }
}
