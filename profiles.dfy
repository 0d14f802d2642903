/**
 * Driver and customer records of users/models.py: the licence-category
 * score table, the fields that `save` derives, and the `clean` validators.
 */
module Profiles {
  import opened Wrappers
  import opened Text
  import Decimal

  /** Licence and vehicle categories, weakest first. */
  const Categories: seq<string> := ["A", "B", "C", "D", "E", "F"]

  /** The category-to-score dictionary written out in both `save` methods. */
  function ScoreTable(category: string): (r: Option<int>)
    ensures r.Some? <==> category in Categories
  {
    if category == "A" then Some(5)
    else if category == "B" then Some(10)
    else if category == "C" then Some(20)
    else if category == "D" then Some(30)
    else if category == "E" then Some(40)
    else if category == "F" then Some(100)
    else None
  }

  /** The score DriverProfile.save derives: the table entry, 0 for an unknown category. */
  function DriverLicenseScore(category: string): (r: int)
    ensures category !in Categories ==> r == 0
    ensures category in Categories ==> 5 <= r <= 100
  {
    ScoreTable(category).GetOr(0)
  }

  /** The score CustomerVehicle.save derives: the table entry, 10 for an unknown category. */
  function VehicleRequiredScore(category: string): (r: int)
    ensures category !in Categories ==> r == 10
    ensures 5 <= r <= 100
  {
    ScoreTable(category).GetOr(10)
  }

  /** The table grows strictly from A to F. */
  lemma ScoreTableStrictlyIncreasing(i: nat, j: nat)
    requires i < j < |Categories|
    ensures ScoreTable(Categories[i]).Some? && ScoreTable(Categories[j]).Some?
    ensures ScoreTable(Categories[i]).value < ScoreTable(Categories[j]).value
  {
  }

  /**
   * For known categories a driver's score covers a vehicle's requirement
   * exactly when the driver's category is at least the vehicle's.
   */
  lemma ScoreOrderIsCategoryOrder(i: nat, j: nat)
    requires i < |Categories| && j < |Categories|
    ensures DriverLicenseScore(Categories[i]) >= VehicleRequiredScore(Categories[j]) <==> i >= j
  {
    if i < j {
      ScoreTableStrictlyIncreasing(i, j);
    } else if j < i {
      ScoreTableStrictlyIncreasing(j, i);
    }
  }

  /** A driver whose category is not in the table scores 0, below every vehicle's requirement. */
  lemma UnknownDriverCategoryQualifiesForNothing(driverCategory: string, vehicleCategory: string)
    requires driverCategory !in Categories
    ensures DriverLicenseScore(driverCategory) < VehicleRequiredScore(vehicleCategory)
  {
  }

  /** `clean`'s treatment of a nullable coordinate: rounded to six places when present. */
  function RoundCoordinate(c: Option<real>): (r: Option<real>)
    ensures r.None? <==> c.None?
    ensures c.Some? ==> Decimal.IsHalfEvenAtScale(c.value, 1000000.0, r.value)
    ensures c.Some? ==> c.value - Decimal.Micro / 2.0 <= r.value <= c.value + Decimal.Micro / 2.0
  {
    match c
    case None => None
    case Some(x) => Some(Decimal.Round6(x))
  }

  /** Cleaning a coordinate twice is cleaning it once. */
  lemma RoundCoordinateIdempotent(c: Option<real>)
    ensures RoundCoordinate(RoundCoordinate(c)) == RoundCoordinate(c)
  {
    if c.Some? {
      Decimal.Round6Idempotent(c.value);
    }
  }

  /** Python `s.isdigit()` restricted to ASCII: non-empty and digits only. */
  predicate IsDigitString(s: string) {
    s != [] && forall i :: 0 <= i < |s| ==> IsDigit(s[i])
  }

  /** EmergencyContact.clean accepts the phone number: empty, or digits once every '+' is removed. */
  predicate ContactPhoneAccepted(phone: string) {
    phone == [] || IsDigitString(Remove(phone, '+'))
  }

  /** A non-empty phone is accepted exactly when it holds only digits and '+', and at least one digit. */
  lemma {:induction false} ContactPhoneAcceptedChars(phone: string)
    requires phone != []
    ensures ContactPhoneAccepted(phone) <==>
      (forall i :: 0 <= i < |phone| ==> phone[i] == '+' || IsDigit(phone[i]))
      && (exists i :: 0 <= i < |phone| && IsDigit(phone[i]))
  {
    var rest := Remove(phone, '+');
    if ContactPhoneAccepted(phone) {
      forall i | 0 <= i < |phone| ensures phone[i] == '+' || IsDigit(phone[i]) {
        if phone[i] != '+' {
          assert phone[i] in rest;
        }
      }
      assert rest[0] in phone;
    }
    if (forall i :: 0 <= i < |phone| ==> phone[i] == '+' || IsDigit(phone[i]))
       && (exists i :: 0 <= i < |phone| && IsDigit(phone[i]))
    {
      var k :| 0 <= k < |phone| && IsDigit(phone[k]);
      assert phone[k] in rest;
      forall i | 0 <= i < |rest| ensures IsDigit(rest[i]) {
        assert rest[i] in phone;
      }
    }
  }

  /** A lone '+' is rejected: nothing remains once it is removed. */
  lemma BarePlusRejected()
    ensures !ContactPhoneAccepted("+")
  {
    assert Remove("+", '+') == [];
  }

  /** EmergencyContact.save: every space removed from a non-empty phone number. */
  function NormalizedPhone(phone: string): (r: string)
    ensures forall i :: 0 <= i < |r| ==> r[i] != ' '
    ensures forall i :: 0 <= i < |phone| && phone[i] != ' ' ==> phone[i] in r
    ensures multiset(r) == multiset(phone)[' ' := 0]
  {
    if phone == [] then phone else Remove(phone, ' ')
  }

  /**
   * Normalising works piece by piece: together with the multiset clause of
   * NormalizedPhone, the spaces are deleted and every other character stays,
   * once, in its place.
   */
  lemma NormalizedPhoneAppend(a: string, b: string)
    ensures NormalizedPhone(a + b) == NormalizedPhone(a) + NormalizedPhone(b)
  {
    RemoveAppend(a, b, ' ');
  }

  /** A single character is kept unless it is a space. */
  lemma NormalizedPhoneOfChar(x: char)
    ensures NormalizedPhone([x]) == if x == ' ' then [] else [x]
  {
    var r := NormalizedPhone([x]);
    assert |r| <= 1;
    if r != [] { assert r[0] in multiset(r); }
  }

  /** Saving twice stores the same phone number as saving once. */
  lemma NormalizedPhoneIdempotent(phone: string)
    ensures NormalizedPhone(NormalizedPhone(phone)) == NormalizedPhone(phone)
  {
    if phone != [] {
      RemoveIdempotent(phone, ' ');
    }
  }

  /** Transmission capability of a driver (DriverProfile.TransmissionType). */
  datatype Capability = AutomaticOnly | ManualAndAutomatic

  /**
   * Transmission type of a customer's vehicle (CustomerVehicle.TransmissionType):
   * 'AUTO', 'MANUAL', or any other string, which add_vehicle_view stores
   * unchecked.
   */
  datatype Transmission = Automatic | Manual | OtherTransmission

  /** The fields of a DriverProfile that `clean` and `save` read or write. */
  class DriverProfile {
    var licenseCategory: string
    var licenseScore: int
    var isVerified: bool
    var licenseNumber: Option<string>
    var currentLatitude: Option<real>
    var currentLongitude: Option<real>

    constructor (category: string, verified: bool, number: Option<string>)
      ensures licenseCategory == category && isVerified == verified && licenseNumber == number
      ensures licenseScore == 10 && currentLatitude.None? && currentLongitude.None?
    {
      licenseCategory, isVerified, licenseNumber := category, verified, number;
      licenseScore := 10;
      currentLatitude, currentLongitude := None, None;
    }

    /** DriverProfile.clean: fails for a verified driver without a licence number, else rounds the location. */
    method Clean() returns (valid: bool)
      modifies this
      ensures valid <==> !(old(isVerified) && (old(licenseNumber) == None || old(licenseNumber) == Some("")))
      ensures !valid ==> unchanged(this)
      ensures valid ==> currentLatitude == RoundCoordinate(old(currentLatitude))
      ensures valid ==> currentLongitude == RoundCoordinate(old(currentLongitude))
      ensures licenseCategory == old(licenseCategory) && licenseScore == old(licenseScore)
      ensures isVerified == old(isVerified) && licenseNumber == old(licenseNumber)
    {
      if isVerified && (licenseNumber.None? || licenseNumber.value == "") {
        return false;
      }
      if currentLatitude.Some? {
        currentLatitude := Some(Decimal.Round6(currentLatitude.value));
      }
      if currentLongitude.Some? {
        currentLongitude := Some(Decimal.Round6(currentLongitude.value));
      }
      return true;
    }

    /** DriverProfile.save: the score is recomputed from the category, whatever it held before. */
    method Save()
      modifies this`licenseScore
      ensures licenseScore == DriverLicenseScore(licenseCategory)
    {
      licenseScore := ScoreTable(licenseCategory).GetOr(0);
    }
  }

  /** The fields of a CustomerVehicle that `save` reads or writes. */
  class CustomerVehicle {
    var transmissionType: Transmission
    var vehicleCategory: string
    var requiredLicenseScore: int

    constructor (transmission: Transmission, category: string)
      ensures transmissionType == transmission && vehicleCategory == category
      ensures requiredLicenseScore == 10
    {
      transmissionType, vehicleCategory := transmission, category;
      requiredLicenseScore := 10;
    }

    /** CustomerVehicle.save: the required score is recomputed from the category. */
    method Save()
      modifies this`requiredLicenseScore
      ensures requiredLicenseScore == VehicleRequiredScore(vehicleCategory)
    {
      requiredLicenseScore := ScoreTable(vehicleCategory).GetOr(10);
    }
  }

  class EmergencyContact {
    var phoneNumber: string

    constructor (phone: string)
      ensures phoneNumber == phone
    {
      phoneNumber := phone;
    }

    /** EmergencyContact.clean: a validation error unless the phone is accepted; changes nothing. */
    method Clean() returns (valid: bool)
      ensures valid <==> ContactPhoneAccepted(phoneNumber)
    {
      valid := phoneNumber == [] || IsDigitString(Remove(phoneNumber, '+'));
    }

    /** EmergencyContact.save: spaces are stripped from a non-empty phone number. */
    method Save()
      modifies this
      ensures phoneNumber == NormalizedPhone(old(phoneNumber))
    {
      if phoneNumber != [] {
        phoneNumber := Remove(phoneNumber, ' ');
      }
    }
  }

  class PreferredDestination {
    var latitude: Option<real>
    var longitude: Option<real>
    /** The coordinates the database holds after the last save, if any. */
    var stored: Option<(Option<real>, Option<real>)>

    constructor (lat: Option<real>, lng: Option<real>)
      ensures latitude == lat && longitude == lng && stored.None?
    {
      latitude, longitude, stored := lat, lng, None;
    }

    /** PreferredDestination.clean: present coordinates are rounded to six places. */
    method Clean()
      modifies this`latitude, this`longitude
      ensures latitude == RoundCoordinate(old(latitude))
      ensures longitude == RoundCoordinate(old(longitude))
    {
      if latitude.Some? {
        latitude := Some(Decimal.Round6(latitude.value));
      }
      if longitude.Some? {
        longitude := Some(Decimal.Round6(longitude.value));
      }
    }

    /** PreferredDestination.save: cleans first, so only rounded coordinates are ever stored. */
    method Save()
      modifies this
      ensures latitude == RoundCoordinate(old(latitude)) && longitude == RoundCoordinate(old(longitude))
      ensures stored == Some((latitude, longitude))
    {
      Clean();
      stored := Some((latitude, longitude));
    }
  }
}
