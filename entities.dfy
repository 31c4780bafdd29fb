/**
 * The entities the rental registry owns: a car whose availability flag is
 * updated in place, and the customer and rental records, which are never
 * changed after they are created and are therefore values.
 */
module Entities {

  /** A car offered for rent. Its rate is a whole number of cents per day. */
  class Car {
    const carId: string
    const brand: string
    const model: string
    const basePricePerDay: int
    var isAvailable: bool

    /** A new car starts out available. */
    constructor (carId: string, brand: string, model: string, basePricePerDay: int)
      ensures this.carId == carId && this.brand == brand && this.model == model
      ensures this.basePricePerDay == basePricePerDay
      ensures isAvailable
    {
      this.carId := carId;
      this.brand := brand;
      this.model := model;
      this.basePricePerDay := basePricePerDay;
      isAvailable := true;
    }

    /**
     * Price of renting this car for `rentalDays` days: the daily rate charged
     * once per day. The sign of the day count is not checked, so a negative
     * count gives the negated charge.
     */
    function CalculatePrice(rentalDays: int): (price: int)
      ensures rentalDays >= 0 ==> price == RateForDays(basePricePerDay, rentalDays)
      ensures rentalDays < 0 ==> price == -RateForDays(basePricePerDay, -rentalDays)
    {
      RateForDaysIsProduct(basePricePerDay, if rentalDays >= 0 then rentalDays else -rentalDays);
      basePricePerDay * rentalDays
    }

    /** Marks the car as rented out. */
    method Rent()
      modifies this
      ensures !isAvailable
    {
      isAvailable := false;
    }

    /** Marks the car as back in the fleet. */
    method ReturnCar()
      modifies this
      ensures isAvailable
    {
      isAvailable := true;
    }
  }

  /** A customer; one is registered for every rental attempt. */
  datatype Customer = Customer(customerId: string, name: string)

  /** An active rental: which car, to whom, for how many days. */
  datatype Rental = Rental(car: Car, customer: Customer, days: int)

  /** The daily rate charged once for each of `days` days. */
  function RateForDays(rate: int, days: nat): (total: int)
  {
    if days == 0 then 0 else RateForDays(rate, days - 1) + rate
  }

  /** Charging the rate once per day is multiplying the rate by the number of days. */
  lemma {:induction false} RateForDaysIsProduct(rate: int, days: nat)
    ensures RateForDays(rate, days) == rate * days
  {
    if days > 0 {
      RateForDaysIsProduct(rate, days - 1);
      assert rate * days == rate * (days - 1) + rate;
    }
  }
}
