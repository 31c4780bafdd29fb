# Car rental registry

A Dafny model of a console car-rental program. The registry (`CarRentalSystem`) owns three lists:

- the fleet of cars;
- the customers registered so far;
- the active rentals.

A car carries a daily rate and an availability flag, and its methods flip that flag in place. Renting appends a rental and marks the car out. Returning marks the car available and removes the first rental that refers to that car object.

The two transactions of the console menu are modelled as methods. They take the operator's answers as parameters and return an outcome value instead of printing:

- "Rent a Car" lists the available cars and always registers a new customer `"CUS" + (count + 1)`. It then looks for the first available car with the given id. It rents only when the confirmation is `Y` in either case.
- "Return a Car" looks for the first rented-out car with the given id, then for the first rental that refers to it. It returns the car only when both exist.

Layout:

- `entities.dfy` (module `Entities`): `Car` as a class; `Customer` and `Rental` as datatypes, because neither is changed after creation.
- `rental_lists.dfy` (module `RentalLists`): specification functions over the lists, such as counting, first-match search, removal and the available-car filter, with lemmas about them.
- `registry.dfy` (module `Registry`): the registry class, its invariant, its operations and the two menu steps.
- `strings.dfy` (module `Strings`): Java's decimal rendering of a non-negative int and `equalsIgnoreCase`.
- `scenario.dfy` (module `Scenario`): clients that start from the seed fleet.

Rates and prices are whole numbers of cents. For example, C002 at 7000 cents for 5 days gives 35000.

The registry's invariant `Consistent()` says that every car in the fleet has one rental referring to it while it is out and none while it is available. This is slightly stronger than "a car is unavailable iff exactly one rental refers to it". The weaker form alone is not preserved by `rentCar`: an available car that two rentals referred to would end up with three. `Consistent()` itself promises the weaker form as its postcondition.

Apart from taking non-null cars, the source has no preconditions on its operations, so the registry's methods have none either. Each method instead promises `old(Consistent()) ==> Consistent()`. `AddCar` promises that the invariant holds afterwards exactly when it held before and the new car is itself consistent. A newly constructed car is consistent: it is available and no rental refers to it.

Two behaviours of the code are easy to miss:

- `ReturnCar` makes the car available before it searches for the rental (Mains.java:137). So a car with no rental still ends up available.
- The day count is not checked for sign anywhere, and a negative count gives a negative price.

## Model

| member | source | states |
|---|---|---|
| `Entities.Car.constructor` | Mains.java:12-18 | a new car has the given id, brand, model and rate, and starts available |
| `Entities.Car.CalculatePrice` | Mains.java:34-36 | the price for d days is the daily rate charged once per day (the rate added up d times); the sign of d is not checked, so a negative d gives the negated charge |
| `Entities.RateForDaysIsProduct` | Mains.java:34-36 | charging the rate once per day for d days equals rate × d, which ties the price to the source's multiplication |
| `Entities.Car.Rent` | Mains.java:44-46 | afterwards the car is unavailable |
| `Entities.Car.ReturnCar` | Mains.java:49-51 | afterwards the car is available |
| `Registry.CarRentalSystem.constructor` | Mains.java:109-113 | the three lists start empty, the invariant holds and the (empty) customer ids are sequential |
| `Registry.CarRentalSystem.AddCar` | Mains.java:116-118 | the car is appended to the fleet, nothing else changes, and the invariant holds afterwards iff it held before and the new car has as many rentals as its flag says (so adding a newly constructed car preserves it) |
| `Registry.CarRentalSystem.AddCustomer` | Mains.java:121-123 | the customer is appended, cars and rentals are unchanged, the invariant is unaffected, and the ids stay sequential iff the new customer's id is "CUS" + (old count + 1) |
| `Registry.CarRentalSystem.RentCar` | Mains.java:126-133 | on an available car: the car becomes unavailable, exactly `Rental(car, customer, days)` is appended, cars and customers are unchanged and no other car's flag changes (frame); on an unavailable car: no state changes; either way the invariant is preserved |
| `Registry.CarRentalSystem.IndexOfRental` | Mains.java:139-144 | the loop finds the index of the first rental whose car is the same object, or the list length when there is none |
| `Registry.CarRentalSystem.ReturnCar` | Mains.java:136-150 | the car always ends up available; exactly the first rental referring to it is removed, the others keep their order; with no such rental the rentals are unchanged; the invariant is preserved |
| `Registry.CarRentalSystem.FindCar` | Mains.java:189-195 | the loop yields the first car whose id equals the input and whose flag is the requested one, or null when none matches (used with "available" for renting and "unavailable" for returning, Mains.java:222-228) |
| `Registry.CarRentalSystem.AvailableCars` | Mains.java:173-177 | the listed cars are exactly the available cars of the fleet, in fleet order |
| `Registry.CarRentalSystem.RentStep` | Mains.java:166-216 | lists the available cars; always appends exactly one customer with id "CUS" + (old count + 1) and the given name; with no available car of that id it reports an invalid selection; otherwise it quotes rate × days and rents (appending one rental, marking that car out) iff the answer equals "Y" ignoring case; in every other case rentals and all flags are unchanged; the invariant is preserved, and so is the sequential numbering of customer ids |
| `Registry.CarRentalSystem.ReturnStep` | Mains.java:217-245 | with no rented-out car of that id, or no rental referring to it, nothing changes; otherwise it reports that rental's customer, removes exactly that rental and makes the car available; under the invariant the "rental missing" outcome never occurs; the invariant is preserved |
| `Registry.CarRentalSystem.Consistent` | Mains.java:126-150 | the invariant (each fleet car has one rental while out and none while available) implies that a fleet car is unavailable iff exactly one rental refers to it, and that never more than one does |
| `Registry.CustomerId` | Mains.java:186 | the id starts with "CUS" and the rest reads back as the number n it was built from |
| `Registry.CustomerIdInjective` | Mains.java:186 | ids "CUS" + n built at different list sizes are different |
| `Registry.SequentialIdsDistinct` | Mains.java:186-187 | when every customer was registered by the rent step (the i-th has id "CUS" + (i + 1)), all customer ids are pairwise distinct |
| `Registry.Confirmed` | Mains.java:208 | `confirm.equalsIgnoreCase("Y")` holds exactly for "Y" and "y" |
| `Strings.EqualsIgnoreCase` | Mains.java:208 | comparing upper-cased characters holds iff the strings have the same length and agree at each position up to the case of a letter |
| `Strings.NatToString` | Mains.java:186 | the decimal text of n is non-empty, all digits, and starts with '0' only for 0 |
| `Strings.ParseNatToString` | Mains.java:186 | reading the decimal text of n back gives n |
| `Strings.NatToStringInjective` | Mains.java:186 | two numbers have the same decimal text iff they are equal |
| `RentalLists.RentalCount` | Mains.java:139-144 | the number of rentals referring to a car is at most the list length, and it is zero iff no rental refers to the car |
| `RentalLists.FirstRentalIndex` | Mains.java:139-144 | the index is within the list; if it is inside the list, that rental refers to the car; no earlier rental does |
| `RentalLists.FirstCarIndex` | Mains.java:190-195 | the index is within the fleet; if it is inside the fleet, that car matches id and flag; no earlier car does |
| `RentalLists.AvailableIn` | Mains.java:173-177 | every listed car is in the fleet and available, and every available car of the fleet is listed |
| `RentalLists.AvailableInAppend` | Mains.java:173-177 | the filter over the fleet plus one car is the filter over the fleet, followed by that car when it is available (the listing keeps fleet order) |
| `RentalLists.AvailableInAllAvailable` | Mains.java:173-177 | when every car of the fleet is available, the listing is the whole fleet in order |
| `RentalLists.RemoveAt` | Mains.java:146 | removing the rental at index k leaves the elements before k in place, shifts the ones after it down by one, and removes exactly that one element (multiset) |
| `RentalLists.RentalCountAppend` | Mains.java:129 | appending a rental adds one to its car's count and leaves every other car's count alone |
| `RentalLists.RentalCountRemoveAt` | Mains.java:146 | removing a rental subtracts one from its car's count and leaves every other car's count alone |
| `RentalLists.FirstRentalIndexFound` | Mains.java:139-145 | the search finds a rental iff the car's count is positive |
| `RentalLists.RentThenReturnRestores` | Mains.java:126-150 | renting a car no rental refers to and then removing its first rental gives back the original rentals |
| `Scenario.RentThenReturn` | Mains.java:126-150 | in a consistent registry, renting an available fleet car with `rentCar` and then calling `returnCar` on it gives back the same rentals, cars and customers, with the car available again and the invariant kept |
| `Scenario.SeedFleet` | Mains.java:259-264 | the seed fleet C001/C002/C003 at 6000/7000/15000 cents, all available, no customers or rentals, invariant holds |
| `Scenario.RentAccord` | Mains.java:166-216 | from the seed fleet, renting C002 for 5 days with "y" reports `Rented(CUS1 Asha, C002, 35000 cents)`, registers CUS1, leaves one rental for C002 and takes C002 out |
| `Scenario.ReturnAccord` | Mains.java:217-245 | returning C002 afterwards reports `Returned(CUS1 Asha)`, keeps the one customer, leaves no rentals and all cars available |
| `Scenario.RentAccordTwice` | Mains.java:166-216 | renting C002 again while it is out lists only C001 and C003, reports `InvalidSelection(CUS2 Ben)`, still registers Ben, and leaves the one rental and all flags as they were |
| `Scenario.RentAccordAgain` | Mains.java:166-245 | after the return, C002 can be rented again: `Rented(CUS2 Dev, C002, 21000 cents)` with exactly that one rental and C002 out |
| `Scenario.RentUnknownId` | Mains.java:166-216 | from the seed fleet, an id no car has is an invalid selection for renting: `InvalidSelection(CUS1 Chen)`, the customer is still registered, no rental is made and every car stays available |
| `Scenario.ReturnUnknownId` | Mains.java:217-245 | returning that unknown id afterwards reports `NotRented` and changes nothing |

## Left out

- Console input and output are left out: the `Scanner` reads, every `println`/`printf`, and the `while (true)` loop of `menu()` with its exit and "invalid choice" branches (Mains.java:154-164, 246-252). Each menu branch is modelled as one call whose answers are parameters and whose message is an outcome value.
- The messages printed by `rentCar` and `returnCar` in their failure branches are the `rented` and `removed` results.
- `double` arithmetic and the `%.2f` price formatting are left out. Rates and prices are integer cents, so rounding is not modelled.
- The `InputMismatchException` that `nextInt` throws on non-numeric input is library behaviour and is not modelled.
- Getters and the display of cars are left out. The model reads the fields directly.
- `Strings.EqualsIgnoreCase` folds only ASCII letters, not the full Unicode case mapping of `String.equalsIgnoreCase`. For the one comparison made, against "Y", this gives the same answer.
- `Registry.SequentialIdsDistinct` holds only for customers registered by the rent step. `addCustomer` is public and accepts any id, so the registry itself does not guarantee unique ids.
- `Registry.CustomerId`: 32-bit overflow of `customers.size() + 1` is not modelled. Counts are unbounded naturals.
- Cars are non-null references in the model: the parameters of `AddCar`, `RentCar` and `ReturnCar`, the fleet and `Rental.car` all have type `Car`. The source's behaviour with a null car is not modelled: `rentCar(null, …)` and `returnCar(null)` throw a `NullPointerException` (Mains.java:127, 137), and `addCar(null)` succeeds (Mains.java:117) but makes every later rent or return step throw (Mains.java:174, 224). The menu never creates a null car.
- `Entities.Customer` is a value, while the source uses a reference that may be null. The source never changes a customer and never compares two customers; its only test on one is the `customer != null` of the return step (Mains.java:237).
- `Registry.CarRentalSystem.ReturnStep`: customers cannot be null in the model, so the source's `customer != null` test (Mains.java:237) becomes "a rental referring to the car was found". The public `rentCar` (Mains.java:126) accepts a null customer; for a car whose rental holds null, the source reports missing rental information and leaves the car out, which the model cannot represent. The menu only ever rents to the customer it has just created (Mains.java:186, 209), which is never null, so for every rental the menu makes the two tests agree.
- Rentals are datatype values that hold a `Car` reference. The source removes a rental object by identity; the model removes the element at the first index whose car is that car object. The source only ever adds freshly created rentals, so this is the same element.
- Days and prices have no `int` bound: the day count is an unbounded integer.
