/** The store-setup wizard's progress check: four steps (address, products,
    payment, carriers), each finished or not, and the next step to show. */
module Wizard {
  import opened Steps

  /** A stored product or carrier as the wizard sees it: only the enabled flag
      is consulted. */
  datatype Entity = Entity(id: int, enabled: bool)

  /** Some entity of the collection is enabled. */
  predicate HasEnabled(entities: seq<Entity>)
  {
    exists e :: e in entities && e.enabled
  }

  /** A repository lookup `findBy(['enabled' => wanted])`: every stored entity
      whose flag equals wanted, each as often as it is stored, and no other. */
  function FindByEnabled(entities: seq<Entity>, wanted: bool): (found: seq<Entity>)
    ensures |found| <= |entities|
    ensures forall e :: e in found ==> e in entities && e.enabled == wanted
    ensures forall e :: e in entities && e.enabled == wanted ==> e in found
    ensures forall e :: multiset(found)[e] == (if e.enabled == wanted then multiset(entities)[e] else 0)
  {
    if entities == [] then []
    else
      assert entities == [entities[0]] + entities[1..];
      var rest := FindByEnabled(entities[1..], wanted);
      if entities[0].enabled == wanted then [entities[0]] + rest else rest
  }

  /** Step 1: the address check, which is a stub that always succeeds. */
  function IsAddressFulfilled(): (fulfilled: bool)
    ensures fulfilled
  {
    true
  }

  /** Step 2: the store has at least one enabled product. */
  function IsThereAnyProduct(products: seq<Entity>): (any: bool)
    ensures any <==> HasEnabled(products)
  {
    var enabledProducts := FindByEnabled(products, true);
    assert enabledProducts != [] ==> enabledProducts[0] in enabledProducts;
    enabledProducts != []
  }

  /** Step 3: the payment check, which is a stub that always succeeds. */
  function IsPaymentFulfilled(): (fulfilled: bool)
    ensures fulfilled
  {
    true
  }

  /** Step 4: the store has at least one enabled carrier. */
  function IsThereAnyCarrier(carriers: seq<Entity>): (any: bool)
    ensures any <==> HasEnabled(carriers)
  {
    var enabledCarriers := FindByEnabled(carriers, true);
    assert enabledCarriers != [] ==> enabledCarriers[0] in enabledCarriers;
    enabledCarriers != []
  }

  /** The ordered map 1 => address, 2 => products, 3 => payment, 4 => carriers. */
  function StepsFinishStatus(products: seq<Entity>, carriers: seq<Entity>): (status: seq<StepStatus>)
    ensures |status| == 4 && StrictlyAscending(status)
    ensures forall i :: 0 <= i < |status| ==> status[i].step == i + 1
    ensures status[0].finished && status[2].finished
    ensures status[1].finished <==> HasEnabled(products)
    ensures status[3].finished <==> HasEnabled(carriers)
  {
    [ StepStatus(1, IsAddressFulfilled()),
      StepStatus(2, IsThereAnyProduct(products)),
      StepStatus(3, IsPaymentFulfilled()),
      StepStatus(4, IsThereAnyCarrier(carriers)) ]
  }

  /** The next step to show, None once the wizard is finished. */
  function NextStep(products: seq<Entity>, carriers: seq<Entity>): (next: Option<int>)
    ensures next == None <==> AllFinished(StepsFinishStatus(products, carriers))
  {
    FirstUnfinished(StepsFinishStatus(products, carriers))
  }

  /** The wizard is finished exactly when there is no next step, that is,
      when an enabled product and an enabled carrier both exist. */
  function WizardFinished(products: seq<Entity>, carriers: seq<Entity>): (finished: bool)
    ensures finished <==> NextStep(products, carriers) == None
    ensures finished <==> HasEnabled(products) && HasEnabled(carriers)
  {
    NextStep(products, carriers).None?
  }

  /** The whole decision table: products are asked for before carriers, and
      the two stub steps are never chosen. */
  lemma NextStepCases(products: seq<Entity>, carriers: seq<Entity>)
    ensures !HasEnabled(products) ==> NextStep(products, carriers) == Some(2)
    ensures HasEnabled(products) && !HasEnabled(carriers) ==> NextStep(products, carriers) == Some(4)
    ensures HasEnabled(products) && HasEnabled(carriers) ==> NextStep(products, carriers) == None
  {
    var status := StepsFinishStatus(products, carriers);
    if !HasEnabled(products) {
      FirstUnfinishedUnique(status, 1);
    } else if !HasEnabled(carriers) {
      FirstUnfinishedUnique(status, 3);
    }
  }

  /** The next step is never the address step (1) nor the payment step (3). */
  lemma NextStepIsTwoOrFour(products: seq<Entity>, carriers: seq<Entity>)
    ensures NextStep(products, carriers) in {None, Some(2), Some(4)}
  {
    NextStepCases(products, carriers);
  }

  /** The next step is the smallest unfinished step number. */
  lemma NextStepIsSmallestUnfinished(products: seq<Entity>, carriers: seq<Entity>)
    ensures var status := StepsFinishStatus(products, carriers);
      NextStep(products, carriers).Some? ==>
        && (exists k :: IsFirstUnfinished(status, k) && status[k].step == NextStep(products, carriers).value)
        && forall i :: 0 <= i < |status| && !status[i].finished ==>
             NextStep(products, carriers).value <= status[i].step
  {
    FirstUnfinishedIsSmallest(StepsFinishStatus(products, carriers));
  }

  /** The configuration collaborator; no step check consults it. */
  class ConfigurationManager {
    constructor ()
    {
    }
  }

  /** A repository of stored entities (products or carriers). */
  class Repository {
    var entities: seq<Entity>

    constructor (entities: seq<Entity>)
      ensures this.entities == entities
    {
      this.entities := entities;
    }
  }

  /** The wizard status service: it holds its three collaborators, set once,
      and only reads through them. */
  class WizardStatus {
    const configurationManager: ConfigurationManager
    const productRepository: Repository
    const carrierRepository: Repository

    constructor (configurationManager: ConfigurationManager,
                 productRepository: Repository,
                 carrierRepository: Repository)
      ensures this.configurationManager == configurationManager
      ensures this.productRepository == productRepository
      ensures this.carrierRepository == carrierRepository
    {
      this.configurationManager := configurationManager;
      this.productRepository := productRepository;
      this.carrierRepository := carrierRepository;
    }

    /** Scans the finish status map in order and returns the first step
        that is not finished, or None when every step is finished. */
    method GetNextStep() returns (next: Option<int>)
      ensures next == NextStep(productRepository.entities, carrierRepository.entities)
      ensures next == None <==> AllFinished(StepsFinishStatus(productRepository.entities, carrierRepository.entities))
    {
      var status := StepsFinishStatus(productRepository.entities, carrierRepository.entities);
      var i := 0;
      while i < |status|
        invariant 0 <= i <= |status|
        invariant forall j :: 0 <= j < i ==> status[j].finished
      {
        if !status[i].finished {
          FirstUnfinishedUnique(status, i);
          return Some(status[i].step);
        }
        i := i + 1;
      }
      return None;
    }

    /** The wizard is finished when there is no next step. */
    method IsWizardFinished() returns (finished: bool)
      ensures finished <==> HasEnabled(productRepository.entities) && HasEnabled(carrierRepository.entities)
      ensures finished == WizardFinished(productRepository.entities, carrierRepository.entities)
    {
      var next := GetNextStep();
      finished := next == None;
    }
  }
}
