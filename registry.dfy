/**
 * The in-memory rental registry: three lists (cars, customers, rentals) that
 * its operations append to and remove from, and the two transactions of the
 * console menu (rent a car, return a car) with their input taken as
 * parameters and their printed messages returned as outcome values.
 */
module Registry {
  import opened Strings
  import opened Entities
  import opened RentalLists

  /** What the rent step reports; the customer is registered in every case. */
  datatype RentOutcome =
    | Rented(customer: Customer, car: Car, price: int)
    | Cancelled(customer: Customer, car: Car, price: int)
    | InvalidSelection(customer: Customer)

  /** What the return step reports. */
  datatype ReturnOutcome =
    | Returned(customer: Customer)
    | RentalMissing
    | NotRented

  /** The id given to the `n`-th registered customer: "CUS" followed by `n` in decimal. */
  function CustomerId(n: nat): (id: string)
    ensures |id| > 3 && id[..3] == "CUS"
    ensures ParseDecimal(id[3..]) == n
  {
    var id := "CUS" + NatToString(n);
    assert id[3..] == NatToString(n);
    ParseNatToString(n);
    id
  }

  /** Customers registered at different list sizes get different ids. */
  lemma CustomerIdInjective(a: nat, b: nat)
    ensures CustomerId(a) == CustomerId(b) <==> a == b
  {
    // follows from CustomerId's postcondition ParseDecimal(id[3..]) == n
  }

  /** Every customer was registered by the rent step: the `i`-th has id "CUS" + (i + 1). */
  ghost predicate IdsSequential(customers: seq<Customer>)
  {
    forall i :: 0 <= i < |customers| ==> customers[i].customerId == CustomerId(i + 1)
  }

  /** Customers registered only by the rent step have pairwise distinct ids. */
  lemma SequentialIdsDistinct(customers: seq<Customer>)
    requires IdsSequential(customers)
    ensures forall i, j :: 0 <= i < j < |customers| ==> customers[i].customerId != customers[j].customerId
  {
    forall i, j | 0 <= i < j < |customers|
      ensures customers[i].customerId != customers[j].customerId
    {
      CustomerIdInjective(i + 1, j + 1);
    }
  }

  /** The rent step goes ahead only on a confirmation equal to "Y", ignoring case: "Y" or "y". */
  predicate Confirmed(answer: string): (yes: bool)
    ensures yes <==> answer == "Y" || answer == "y"
  {
    EqualsIgnoreCase(answer, "Y")
  }

  class CarRentalSystem {
    var cars: seq<Car>
    var customers: seq<Customer>
    var rentals: seq<Rental>

    /** `c` has one rental while it is out and none while it is available. */
    ghost predicate CarConsistent(c: Car)
      reads this, c
    {
      RentalCount(rentals, c) == if c.isAvailable then 0 else 1
    }

    /**
     * The registry's invariant: every car of the fleet is unavailable exactly
     * when one rental refers to it, and no two rentals refer to the same car
     * of the fleet.
     */
    ghost predicate Consistent()
      reads this, cars
      ensures Consistent() ==>
                forall c :: c in cars ==>
                  (!c.isAvailable <==> RentalCount(rentals, c) == 1) && RentalCount(rentals, c) <= 1
    {
      forall c :: c in cars ==> CarConsistent(c)
    }

    /** An empty registry. */
    constructor ()
      ensures cars == [] && customers == [] && rentals == []
      ensures Consistent() && IdsSequential(customers)
    {
      cars := [];
      customers := [];
      rentals := [];
    }

    /** Appends a car to the fleet; ids are not checked for duplicates. */
    method AddCar(car: Car)
      modifies this
      ensures cars == old(cars) + [car]
      ensures customers == old(customers) && rentals == old(rentals)
      ensures Consistent() <==> old(Consistent()) && CarConsistent(car)
    {
      cars := cars + [car];
      assert forall c :: c in old(cars) ==> c in cars;
    }

    /** Appends a customer. */
    method AddCustomer(customer: Customer)
      modifies this
      ensures customers == old(customers) + [customer]
      ensures cars == old(cars) && rentals == old(rentals)
      ensures Consistent() <==> old(Consistent())
      ensures IdsSequential(customers) <==>
                IdsSequential(old(customers)) && customer.customerId == CustomerId(|old(customers)| + 1)
    {
      customers := customers + [customer];
      assert forall i :: 0 <= i < |old(customers)| ==> customers[i] == old(customers)[i];
      assert customers[|old(customers)|] == customer;
    }

    /** Rents `car` out when it is available; otherwise changes nothing. */
    method RentCar(car: Car, customer: Customer, days: int) returns (rented: bool)
      modifies this, car
      ensures rented == old(car.isAvailable)
      ensures cars == old(cars) && customers == old(customers)
      ensures rented ==> !car.isAvailable && rentals == old(rentals) + [Rental(car, customer, days)]
      ensures !rented ==> unchanged(this, car)
      ensures old(Consistent()) ==> Consistent()
    {
      ghost var wasConsistent := Consistent();
      rented := car.isAvailable;
      if rented {
        car.Rent();
        rentals := rentals + [Rental(car, customer, days)];
        if wasConsistent {
          forall c | c in cars
            ensures CarConsistent(c)
          {
            assert old(CarConsistent(c));
            RentalCountAppend(old(rentals), Rental(car, customer, days), c);
          }
        }
      }
      // otherwise the program only prints "Car is not available for rent."
    }

    /** Index of the first rental that refers to `car` (by reference), or `|rentals|`. */
    method IndexOfRental(car: Car) returns (k: nat)
      ensures k == FirstRentalIndex(rentals, car)
    {
      k := 0;
      while k < |rentals|
        invariant k <= |rentals|
        invariant forall i :: 0 <= i < k ==> rentals[i].car != car
      {
        if rentals[k].car == car {
          break;
        }
        k := k + 1;
      }
    }

    /**
     * Makes `car` available, then removes the first rental that refers to it,
     * if there is one; `removed` tells which.
     */
    method ReturnCar(car: Car) returns (removed: bool)
      modifies this, car
      ensures car.isAvailable
      ensures cars == old(cars) && customers == old(customers)
      ensures removed <==> FirstRentalIndex(old(rentals), car) < |old(rentals)|
      ensures removed ==> rentals == RemoveAt(old(rentals), FirstRentalIndex(old(rentals), car))
      ensures !removed ==> rentals == old(rentals)
      ensures old(Consistent()) ==> Consistent()
    {
      ghost var wasConsistent := Consistent();
      car.ReturnCar();
      var k := IndexOfRental(car);
      removed := k < |rentals|;
      if removed {
        rentals := rentals[..k] + rentals[k + 1..];
        assert rentals == RemoveAt(old(rentals), k);
      }
      // otherwise the program only prints "Car was not rented."
      if wasConsistent {
        forall c | c in cars
          ensures CarConsistent(c)
        {
          assert old(CarConsistent(c));
          FirstRentalIndexFound(old(rentals), c);
          if removed {
            RentalCountRemoveAt(old(rentals), k, c);
          }
        }
      }
    }

    /** The first car whose id is `carId` and whose availability is `available`, or null. */
    method FindCar(carId: string, available: bool) returns (car: Car?)
      ensures var k := FirstCarIndex(cars, carId, available);
              car == if k < |cars| then cars[k] else null
    {
      car := null;
      var i := 0;
      while i < |cars|
        invariant i <= |cars|
        invariant forall j :: 0 <= j < i ==> !CarMatches(cars[j], carId, available)
      {
        if cars[i].carId == carId && cars[i].isAvailable == available {
          car := cars[i];
          break;
        }
        i := i + 1;
      }
    }

    /** The cars listed as available, in fleet order. */
    method AvailableCars() returns (listed: seq<Car>)
      ensures listed == AvailableIn(cars)
    {
      listed := [];
      var i := 0;
      while i < |cars|
        invariant i <= |cars|
        invariant listed == AvailableIn(cars[..i])
      {
        assert cars[..i + 1] == cars[..i] + [cars[i]];
        AvailableInAppend(cars[..i], cars[i]);
        if cars[i].isAvailable {
          listed := listed + [cars[i]];
        }
        i := i + 1;
      }
      assert cars[..i] == cars;
    }

    /**
     * One "Rent a Car" menu transaction: lists the available cars, registers
     * a new customer, looks up the first available car with the given id
     * and, if the answer confirms, rents it to that customer.
     */
    method RentStep(name: string, carId: string, days: int, confirm: string)
      returns (listed: seq<Car>, outcome: RentOutcome)
      modifies this, cars
      ensures listed == old(AvailableIn(cars))
      ensures cars == old(cars)
      ensures outcome.customer == Customer(CustomerId(|old(customers)| + 1), name)
      ensures customers == old(customers) + [outcome.customer]
      ensures var k := old(FirstCarIndex(cars, carId, true));
              if k == |cars| then
                outcome.InvalidSelection?
              else
                !outcome.InvalidSelection? &&
                outcome.car == cars[k] && outcome.price == cars[k].basePricePerDay * days &&
                (outcome.Rented? <==> Confirmed(confirm))
      ensures outcome.Rented? ==>
                !outcome.car.isAvailable &&
                rentals == old(rentals) + [Rental(outcome.car, outcome.customer, days)]
      ensures !outcome.Rented? ==> rentals == old(rentals)
      ensures forall c :: c in cars && !(outcome.Rented? && c == outcome.car) ==>
                c.isAvailable == old(c.isAvailable)
      ensures old(Consistent()) ==> Consistent()
      ensures IdsSequential(old(customers)) ==> IdsSequential(customers)
    {
      listed := AvailableCars();
      var customer := Customer(CustomerId(|customers| + 1), name);
      AddCustomer(customer);
      var selected := FindCar(carId, true);
      if selected != null {
        var totalPrice := selected.CalculatePrice(days);
        if Confirmed(confirm) {
          var rented := RentCar(selected, customer, days);
          outcome := Rented(customer, selected, totalPrice);
        } else {
          outcome := Cancelled(customer, selected, totalPrice);
        }
      } else {
        outcome := InvalidSelection(customer);
      }
    }

    /**
     * One "Return a Car" menu transaction: looks up the first rented-out car
     * with the given id, then the first rental that refers to it, and only
     * when both exist returns the car and reports that rental's customer.
     */
    method ReturnStep(carId: string) returns (outcome: ReturnOutcome)
      modifies this, cars
      ensures cars == old(cars) && customers == old(customers)
      ensures var k := old(FirstCarIndex(cars, carId, false));
              if k == |cars| then
                outcome == NotRented && rentals == old(rentals)
              else
                var j := FirstRentalIndex(old(rentals), cars[k]);
                if j == |old(rentals)| then
                  outcome == RentalMissing && rentals == old(rentals)
                else
                  outcome == Returned(old(rentals)[j].customer) &&
                  rentals == RemoveAt(old(rentals), j) && cars[k].isAvailable
      ensures forall c :: c in cars && !(outcome.Returned? && c == cars[old(FirstCarIndex(cars, carId, false))]) ==>
                c.isAvailable == old(c.isAvailable)
      ensures old(Consistent()) ==> !outcome.RentalMissing?
      ensures old(Consistent()) ==> Consistent()
    {
      var carToReturn := FindCar(carId, false);
      if carToReturn != null {
        ghost var k := FirstCarIndex(cars, carId, false);
        var j := IndexOfRental(carToReturn);
        // customers are never null here, so "a customer was found" is "a rental was found"
        if j < |rentals| {
          var customer := rentals[j].customer;
          var removed := ReturnCar(carToReturn);
          outcome := Returned(customer);
        } else {
          outcome := RentalMissing;
          if Consistent() {
            assert CarConsistent(cars[k]);
            FirstRentalIndexFound(rentals, carToReturn);
          }
        }
      } else {
        outcome := NotRented;
      }
    }
  }
}
