# Store-setup wizard status (Elcodi)

This project models the progress check behind Elcodi's store-setup wizard.
The `WizardStatus` service decides whether a new store is ready. It checks
four setup steps in a fixed order: 1 address, 2 products, 3 payment,
4 carriers. It reports the first step that is not finished, or "none" once
the wizard is finished.

- `steps.dfy` (module `Steps`) holds the step-order rule. A status list is an
  ordered sequence of `StepStatus(step, finished)` entries. It stands for the
  PHP ordered array that maps a step number to a finished flag. The function
  `FirstUnfinished` picks the step number of the first unfinished entry.
- `wizard_status.dfy` (module `Wizard`) holds the four step checks and the
  status map. It also holds the `WizardStatus` class. Products and carriers
  are `Entity` records, and only their `enabled` flag is read. A repository
  is an object that holds a sequence of entities. Its `findBy(['enabled' =>
  true])` query is the filter `FindByEnabled`.
- The address and payment checks are stubs that always return `true`, as in
  the source. So steps 1 and 3 are always finished.
- The collaborators are `const` fields of `WizardStatus`. The constructor
  sets them, and no method has a `modifies` clause. So the service only reads
  state. Repeated calls on unchanged repository contents give the same
  result, because `GetNextStep` is tied to a function of those contents.

## Model

| member | source | states |
|---|---|---|
| `Wizard.FindByEnabled` | src/Elcodi/Plugin/StoreSetupWizardBundle/Services/WizardStatus.php:130-132 | the lookup returns every stored entity whose enabled flag matches the criterion, each as many times as it is stored, and no other entity |
| `Wizard.IsAddressFulfilled` | src/Elcodi/Plugin/StoreSetupWizardBundle/Services/WizardStatus.php:118-121 | the address step is always finished |
| `Wizard.IsThereAnyProduct` | src/Elcodi/Plugin/StoreSetupWizardBundle/Services/WizardStatus.php:128-135 | the product step is finished if and only if at least one stored product is enabled |
| `Wizard.IsPaymentFulfilled` | src/Elcodi/Plugin/StoreSetupWizardBundle/Services/WizardStatus.php:142-145 | the payment step is always finished |
| `Wizard.IsThereAnyCarrier` | src/Elcodi/Plugin/StoreSetupWizardBundle/Services/WizardStatus.php:152-159 | the carrier step is finished if and only if at least one stored carrier is enabled |
| `Wizard.StepsFinishStatus` | src/Elcodi/Plugin/StoreSetupWizardBundle/Services/WizardStatus.php:103-111 | the status map has exactly the keys 1, 2, 3, 4 in ascending order; steps 1 and 3 are finished; step 2 is finished iff an enabled product exists; step 4 is finished iff an enabled carrier exists |
| `Steps.FirstUnfinishedIndex` | src/Elcodi/Plugin/StoreSetupWizardBundle/Services/WizardStatus.php:89-95 | the scan stops at the end exactly when every step is finished; otherwise it stops at an unfinished step, and every step before that one is finished |
| `Steps.FirstUnfinished` | src/Elcodi/Plugin/StoreSetupWizardBundle/Services/WizardStatus.php:85-96 | the result is none if and only if every step is finished; otherwise it is the key of an unfinished step with all earlier steps finished |
| `Steps.FirstUnfinishedUnique` | src/Elcodi/Plugin/StoreSetupWizardBundle/Services/WizardStatus.php:89-93 | any unfinished step whose earlier steps are all finished is the one the scan returns |
| `Steps.FirstUnfinishedIsSmallest` | src/Elcodi/Plugin/StoreSetupWizardBundle/Services/WizardStatus.php:89-93 | when the keys ascend, the returned step has the smallest number among the unfinished steps |
| `Wizard.NextStep` | src/Elcodi/Plugin/StoreSetupWizardBundle/Services/WizardStatus.php:85-96 | the next step is none if and only if every entry of the status map is finished |
| `Wizard.WizardFinished` | src/Elcodi/Plugin/StoreSetupWizardBundle/Services/WizardStatus.php:75-78 | the wizard is finished exactly when there is no next step, which is exactly when an enabled product and an enabled carrier both exist |
| `Wizard.NextStepCases` | src/Elcodi/Plugin/StoreSetupWizardBundle/Services/WizardStatus.php:85-111 | with no enabled product the next step is 2, whatever the carriers are; with an enabled product and no enabled carrier it is 4; with both it is none |
| `Wizard.NextStepIsTwoOrFour` | src/Elcodi/Plugin/StoreSetupWizardBundle/Services/WizardStatus.php:118-121 | the next step is only ever 2, 4 or none, because steps 1 and 3 are stubs that are always finished |
| `Wizard.NextStepIsSmallestUnfinished` | src/Elcodi/Plugin/StoreSetupWizardBundle/Services/WizardStatus.php:89-93 | the next step is unfinished, every step before it is finished, and it has the smallest unfinished step number |
| `Wizard.Repository.constructor` | src/Elcodi/Plugin/StoreSetupWizardBundle/Services/WizardStatus.php:39-50 | the injected ProductRepository and CarrierRepository, reduced to their stored entities: a repository holds exactly the entities it is given |
| `Wizard.WizardStatus.constructor` | src/Elcodi/Plugin/StoreSetupWizardBundle/Services/WizardStatus.php:60-68 | the service keeps the three collaborators it is given; the fields are constants and are never reassigned |
| `Wizard.WizardStatus.GetNextStep` | src/Elcodi/Plugin/StoreSetupWizardBundle/Services/WizardStatus.php:85-96 | the loop over the status map returns the first unfinished step, or none; this equals `NextStep` of the current repository contents, so repeated calls on unchanged contents agree |
| `Wizard.WizardStatus.IsWizardFinished` | src/Elcodi/Plugin/StoreSetupWizardBundle/Services/WizardStatus.php:75-78 | the service reports the wizard finished if and only if an enabled product and an enabled carrier exist |

## Left out

- Failures of the repository queries are not modelled. In PHP these would be exceptions (storage unavailable, for example), and the service lets them propagate. Here every query returns a value.
- Doctrine's `findBy` is not modelled beyond its result. Query building, hydration and persistence are left out. The result is modelled as a filter over the stored sequence of entities.
- `ConfigurationManager` is kept as an empty class held in a field. No step check uses it.
- Product and carrier entities have more fields than the `enabled` flag. The shared `Entity` record keeps only that flag, which is the only field the checks read, and an `id` that tells stored entities apart.
- Wizard.FindByEnabled: the order of the result is not stated. A `findBy` without an ordering argument promises no order, and the wizard only tests whether the result is empty.
- The PHP `(int)` cast on the array key (line 91) is the identity here, because the keys are the integer literals 1 to 4.
- A lookup of a step number that is not in the map has no code path in the source, so it is not modelled.
- src/Elcodi/Bundle/ShippingBundle/Tests/Functional/Repository/CarrierPriceRangeRepositoryTest.php is not part of this model. It only checks how the service container resolves two service names.
