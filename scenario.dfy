/**
 * Clients of the registry built from the seed fleet (three cars, rates in
 * cents), showing what the operations' contracts let a caller conclude.
 */
module Scenario {
  import opened Strings
  import opened Entities
  import opened RentalLists
  import opened Registry

  /** The registry as the program starts it: three cars, no customers, no rentals. */
  method SeedFleet() returns (system: CarRentalSystem, camry: Car, accord: Car, thar: Car)
    ensures fresh(system) && fresh(camry) && fresh(accord) && fresh(thar)
    ensures system.cars == [camry, accord, thar]
    ensures system.customers == [] && system.rentals == []
    ensures camry.carId == "C001" && accord.carId == "C002" && thar.carId == "C003"
    ensures camry.basePricePerDay == 6000 && accord.basePricePerDay == 7000 && thar.basePricePerDay == 15000
    ensures camry.isAvailable && accord.isAvailable && thar.isAvailable
    ensures system.Consistent()
  {
    system := new CarRentalSystem();
    camry := new Car("C001", "Toyota", "Camry", 6000);
    accord := new Car("C002", "Honda", "Accord", 7000);
    thar := new Car("C003", "Mahindra", "Thar", 15000);
    system.AddCar(camry);
    system.AddCar(accord);
    system.AddCar(thar);
  }

  /** Renting C002 for five days at 70.00 a day costs 350.00 and takes it off the list. */
  method RentAccord() returns (system: CarRentalSystem, camry: Car, accord: Car, thar: Car, rent: RentOutcome)
    ensures rent == Rented(Customer("CUS1", "Asha"), accord, 35000)
    ensures fresh(system) && fresh(camry) && fresh(accord) && fresh(thar)
    ensures system.cars == [camry, accord, thar]
    ensures camry.carId == "C001" && accord.carId == "C002" && thar.carId == "C003"
    ensures accord.basePricePerDay == 7000
    ensures camry.isAvailable && !accord.isAvailable && thar.isAvailable
    ensures system.customers == [Customer("CUS1", "Asha")]
    ensures system.rentals == [Rental(accord, Customer("CUS1", "Asha"), 5)]
    ensures system.Consistent()
  {
    system, camry, accord, thar := SeedFleet();
    AvailableInAllAvailable(system.cars);
    assert camry.carId != "C002" by { assert camry.carId[3] != "C002"[3]; }
    assert FirstCarIndex(system.cars, "C002", true) == 1;
    assert NatToString(1) == "1";
    var listed;
    listed, rent := system.RentStep("Asha", "C002", 5, "y");
    assert listed == [camry, accord, thar];
  }

  /** Renting an available fleet car and returning it gives back the rentals and the flag as they were. */
  method RentThenReturn(system: CarRentalSystem, car: Car, customer: Customer, days: int)
    requires system.Consistent() && car in system.cars && car.isAvailable
    modifies system, car
    ensures system.cars == old(system.cars) && system.customers == old(system.customers)
    ensures system.rentals == old(system.rentals)
    ensures car.isAvailable && system.Consistent()
  {
    assert system.CarConsistent(car);
    RentThenReturnRestores(system.rentals, Rental(car, customer, days));
    var rented := system.RentCar(car, customer, days);
    var removed := system.ReturnCar(car);
  }

  /** Once C002 is out it is not offered again, yet the attempt still registers a customer. */
  method RentAccordTwice() returns (system: CarRentalSystem, camry: Car, accord: Car, thar: Car,
                                    listed: seq<Car>, rent: RentOutcome)
    ensures listed == [camry, thar]
    ensures rent == InvalidSelection(Customer("CUS2", "Ben"))
    ensures system.customers == [Customer("CUS1", "Asha"), Customer("CUS2", "Ben")]
    ensures system.rentals == [Rental(accord, Customer("CUS1", "Asha"), 5)]
    ensures camry.isAvailable && !accord.isAvailable && thar.isAvailable
  {
    var first: RentOutcome;
    system, camry, accord, thar, first := RentAccord();
    assert thar.carId != "C002" by { assert thar.carId[3] != "C002"[3]; }
    assert FirstCarIndex(system.cars, "C002", true) == 3;
    assert [camry, accord, thar][1..] == [accord, thar];
    assert [accord, thar][1..] == [thar];
    assert [thar][1..] == [];
    assert AvailableIn([thar]) == [thar];
    assert AvailableIn([accord, thar]) == [thar];
    assert NatToString(2) == "2";
    listed, rent := system.RentStep("Ben", "C002", 2, "Y");
  }

  /** Returning C002 reports its customer and leaves no rental behind. */
  method ReturnAccord() returns (system: CarRentalSystem, camry: Car, accord: Car, thar: Car, back: ReturnOutcome)
    ensures back == Returned(Customer("CUS1", "Asha"))
    ensures fresh(system) && fresh(camry) && fresh(accord) && fresh(thar)
    ensures system.cars == [camry, accord, thar]
    ensures camry.carId == "C001" && accord.carId == "C002" && thar.carId == "C003"
    ensures accord.basePricePerDay == 7000
    ensures camry.isAvailable && accord.isAvailable && thar.isAvailable
    ensures system.customers == [Customer("CUS1", "Asha")]
    ensures system.rentals == []
    ensures system.Consistent()
  {
    var rent;
    system, camry, accord, thar, rent := RentAccord();
    assert camry.carId != "C002" by { assert camry.carId[3] != "C002"[3]; }
    assert FirstCarIndex(system.cars, "C002", false) == 1;
    back := system.ReturnStep("C002");
  }

  /** After its return C002 can be rented again, by the second registered customer. */
  method RentAccordAgain() returns (system: CarRentalSystem, accord: Car, rent: RentOutcome)
    ensures rent == Rented(Customer("CUS2", "Dev"), accord, 21000)
    ensures system.rentals == [Rental(accord, Customer("CUS2", "Dev"), 3)]
    ensures !accord.isAvailable
  {
    var camry: Car, thar: Car, back: ReturnOutcome;
    system, camry, accord, thar, back := ReturnAccord();
    assert camry.carId != "C002" by { assert camry.carId[3] != "C002"[3]; }
    assert FirstCarIndex(system.cars, "C002", true) == 1;
    assert NatToString(2) == "2";
    assert CustomerId(|system.customers| + 1) == "CUS2";
    assert Confirmed("Y");
    var listed;
    listed, rent := system.RentStep("Dev", "C002", 3, "Y");
  }

  /** An id no car has is an invalid selection for renting: the customer is registered, nothing else changes. */
  method RentUnknownId() returns (system: CarRentalSystem, camry: Car, accord: Car, thar: Car, rent: RentOutcome)
    ensures rent == InvalidSelection(Customer("CUS1", "Chen"))
    ensures fresh(system) && fresh(camry) && fresh(accord) && fresh(thar)
    ensures system.cars == [camry, accord, thar]
    ensures camry.carId == "C001" && accord.carId == "C002" && thar.carId == "C003"
    ensures system.customers == [Customer("CUS1", "Chen")] && system.rentals == []
    ensures camry.isAvailable && accord.isAvailable && thar.isAvailable
  {
    system, camry, accord, thar := SeedFleet();
    AvailableInAllAvailable(system.cars);
    assert camry.carId != "C999" by { assert camry.carId[1] != "C999"[1]; }
    assert accord.carId != "C999" by { assert accord.carId[1] != "C999"[1]; }
    assert thar.carId != "C999" by { assert thar.carId[1] != "C999"[1]; }
    assert FirstCarIndex(system.cars, "C999", true) == 3;
    assert NatToString(1) == "1";
    var listed;
    listed, rent := system.RentStep("Chen", "C999", 1, "Y");
  }

  /** Nor can an id no car has be returned: nothing changes. */
  method ReturnUnknownId() returns (system: CarRentalSystem, camry: Car, accord: Car, thar: Car, back: ReturnOutcome)
    ensures back == NotRented
    ensures system.customers == [Customer("CUS1", "Chen")] && system.rentals == []
    ensures camry.isAvailable && accord.isAvailable && thar.isAvailable
  {
    var rent;
    system, camry, accord, thar, rent := RentUnknownId();
    assert camry.carId != "C999" by { assert camry.carId[1] != "C999"[1]; }
    assert accord.carId != "C999" by { assert accord.carId[1] != "C999"[1]; }
    assert thar.carId != "C999" by { assert thar.carId[1] != "C999"[1]; }
    assert FirstCarIndex(system.cars, "C999", false) == 3;
    back := system.ReturnStep("C999");
  }
}
